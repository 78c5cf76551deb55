/**
 * Filing discovery: the cursor, the ledger of accessions and the queue, through cycles that may stop
 * after any write. Times are milliseconds; a filing's date is a day number, since SEC gives no time.
 */
module Poller {
  import opened Common

  type Cik = string
  type Accession = string

  datatype Filing = Filing(accession: Accession, form: string, day: int)

  /** What one company's submissions fetch gives: its filings and, if the document has it, its industry. */
  datatype Answer = FetchFailed | Listed(filings: seq<Filing>, industry: Option<string>)

  datatype FailureRow = FailureRow(consecutiveFailures: nat, quarantined: bool)

  datatype Job = Job(cik: Cik, filing: Filing)

  /**
   * `poller_state`, `discovered_filings`, every job ever added to `filing.discovered`, `failing_companies`, and the
   * industry in each row of `companies`.
   */
  datatype State = State(
    cursor: Option<int>,
    ledger: set<Accession>,
    queue: seq<Job>,
    failing: map<Cik, FailureRow>,
    industries: map<Cik, Option<string>>)

  const DAY_MS := 86_400_000
  const FILING_LOOKBACK_DAYS := 2
  const MAX_CONSECUTIVE_FAILURES := 5

  /** The UTC date of a time. */
  function DayOf(ms: int): int {
    ms / DAY_MS
  }

  /**
   * One cycle's surroundings: when it reads the cursor and starts, what each company's fetch gives and
   * when, and after how many writes the process stops or a call throws - never, if there are fewer.
   */
  datatype Cycle = Cycle(
    readAt: int,
    startedAt: int,
    universe: seq<Cik>,
    answers: seq<Answer>,
    fetchedAt: seq<int>,
    stopAfter: nat) {

    ghost predicate Valid() {
      |answers| == |universe| == |fetchedAt|
    }
  }

  /** The writes a cycle makes, each of which goes through or not on its own. */
  datatype Effect =
    | CountFailure(cik: Cik)
    | Quarantine(cik: Cik)
    | SetIndustry(cik: Cik, industry: string)
    | Enqueue(job: Job)
    | Record(accession: Accession)
    | SetCursor(at: int)

  function FailuresOf(s: State, cik: Cik): nat {
    if cik in s.failing then s.failing[cik].consecutiveFailures else 0
  }

  predicate IsQuarantined(s: State, cik: Cik) {
    cik in s.failing && s.failing[cik].quarantined
  }

  function Apply(s: State, e: Effect): State {
    match e
    case CountFailure(cik) =>
      s.(failing := s.failing[cik := FailureRow(FailuresOf(s, cik) + 1, IsQuarantined(s, cik))])
    case Quarantine(cik) =>
      s.(failing := s.failing[cik := FailureRow(FailuresOf(s, cik), true)])
    case SetIndustry(cik, industry) =>
      if cik in s.industries then s.(industries := s.industries[cik := Some(industry)]) else s
    case Enqueue(job) => s.(queue := s.queue + [job])
    case Record(accession) => s.(ledger := s.ledger + {accession})
    case SetCursor(at) => s.(cursor := Some(at))
  }

  function Perform(s: State, effects: seq<Effect>): State
    decreases |effects|
  {
    if effects == [] then s else Perform(Apply(s, effects[0]), effects[1..])
  }

  /** The cursor, or a day before now when none is stored yet. */
  function LastCheckedAt(s: State, readAt: int): int {
    if s.cursor.Some? then s.cursor.value else readAt - DAY_MS
  }

  function EarliestDay(s: State, readAt: int): int {
    DayOf(LastCheckedAt(s, readAt) - FILING_LOOKBACK_DAYS * DAY_MS)
  }

  /** The filings in the window that the ledger, read once for the document, does not hold. */
  function NewFilings(filings: seq<Filing>, earliest: int, ledger: set<Accession>): seq<Filing> {
    if filings == [] then []
    else
      (if filings[0].day >= earliest && filings[0].accession !in ledger then [filings[0]] else [])
      + NewFilings(filings[1..], earliest, ledger)
  }

  function Announce(cik: Cik, filings: seq<Filing>): seq<Effect> {
    if filings == [] then []
    else [Enqueue(Job(cik, filings[0])), Record(filings[0].accession)] + Announce(cik, filings[1..])
  }

  /** `recordFailure`: count it, and quarantine the company once it has failed five times in a row. */
  function FailureEffects(s: State, cik: Cik): seq<Effect> {
    [CountFailure(cik)]
    + (if FailuresOf(s, cik) + 1 >= MAX_CONSECUTIVE_FAILURES && !IsQuarantined(s, cik) then [Quarantine(cik)] else [])
  }

  function IndustryEffects(cik: Cik, industry: Option<string>): seq<Effect> {
    if industry.None? then [] else [SetIndustry(cik, industry.value)]
  }

  function CompanyEffects(s: State, cik: Cik, answer: Answer, earliest: int): seq<Effect> {
    if IsQuarantined(s, cik) then []
    else match answer
      case FetchFailed => FailureEffects(s, cik)
      case Listed(filings, industry) =>
        IndustryEffects(cik, industry) + Announce(cik, NewFilings(filings, earliest, s.ledger))
  }

  /** Whether the company counts as one the cycle could not check. */
  predicate Missed(s: State, cik: Cik, answer: Answer) {
    !IsQuarantined(s, cik) && answer.FetchFailed?
  }

  /** The writes from the i-th company on. */
  function EffectsFrom(s: State, c: Cycle, earliest: int, i: nat): seq<Effect>
    requires c.Valid() && i <= |c.universe|
    decreases |c.universe| - i
  {
    if i == |c.universe| then []
    else
      var mine := CompanyEffects(s, c.universe[i], c.answers[i], earliest);
      mine + EffectsFrom(Perform(s, mine), c, earliest, i + 1)
  }

  /** How many companies from the i-th on could not be checked. */
  function MissedFrom(s: State, c: Cycle, earliest: int, i: nat): nat
    requires c.Valid() && i <= |c.universe|
    decreases |c.universe| - i
  {
    if i == |c.universe| then 0
    else
      var mine := CompanyEffects(s, c.universe[i], c.answers[i], earliest);
      (if Missed(s, c.universe[i], c.answers[i]) then 1 else 0) + MissedFrom(Perform(s, mine), c, earliest, i + 1)
  }

  predicate Clean(s: State, c: Cycle)
    requires c.Valid()
  {
    MissedFrom(s, c, EarliestDay(s, c.readAt), 0) == 0
  }

  /** All of a cycle's writes: the cursor moves last, and only when no company was missed. */
  function Effects(s: State, c: Cycle): seq<Effect>
    requires c.Valid()
  {
    EffectsFrom(s, c, EarliestDay(s, c.readAt), 0) + (if Clean(s, c) then [SetCursor(c.startedAt)] else [])
  }

  predicate Completes(s: State, c: Cycle)
    requires c.Valid()
  {
    |Effects(s, c)| <= c.stopAfter
  }

  /** The writes that go through. */
  function Written(s: State, c: Cycle): seq<Effect>
    requires c.Valid()
  {
    if Completes(s, c) then Effects(s, c) else Effects(s, c)[..c.stopAfter]
  }

  function AfterCycle(s: State, c: Cycle): State
    requires c.Valid()
  {
    Perform(s, Written(s, c))
  }

  datatype Outcome = Finished(companiesChecked: nat, newFilingsFound: nat, companiesFailed: nat) | Stopped

  function Enqueues(effects: seq<Effect>): nat {
    if effects == [] then 0 else (if effects[0].Enqueue? then 1 else 0) + Enqueues(effects[1..])
  }

  lemma {:induction false} PerformConcat(s: State, a: seq<Effect>, b: seq<Effect>)
    ensures Perform(s, a + b) == Perform(Perform(s, a), b)
    decreases |a|
  {
    if a == [] {
      assert a + b == b;
    } else {
      assert (a + b)[1..] == a[1..] + b;
      PerformConcat(Apply(s, a[0]), a[1..], b);
    }
  }

  lemma PerformOneMore(s: State, a: seq<Effect>, e: Effect)
    ensures Perform(s, a + [e]) == Apply(Perform(s, a), e)
  {
    PerformConcat(s, a, [e]);
    assert Perform(Perform(s, a), [e]) == Perform(Apply(Perform(s, a), e), []);
  }

  lemma {:induction false} EnqueuesConcat(a: seq<Effect>, b: seq<Effect>)
    ensures Enqueues(a + b) == Enqueues(a) + Enqueues(b)
    decreases |a|
  {
    if a == [] {
      assert a + b == b;
    } else {
      assert (a + b)[1..] == a[1..] + b;
      EnqueuesConcat(a[1..], b);
    }
  }

  /** The next batch of writes after those done: all of it, or as much as there is room for. */
  lemma CutInside(s: State, done: seq<Effect>, mine: seq<Effect>, rest: seq<Effect>, room: nat)
    ensures done + (mine + rest) == (done + mine) + rest
    ensures Perform(s, done + mine) == Perform(Perform(s, done), mine)
    ensures Enqueues(done + mine) == Enqueues(done) + Enqueues(mine)
    ensures room < |mine| ==>
              Perform(s, (done + (mine + rest))[..|done| + room]) == Perform(Perform(s, done), mine[..room])
  {
    PerformConcat(s, done, mine);
    EnqueuesConcat(done, mine);
    if room < |mine| {
      assert (done + (mine + rest))[..|done| + room] == done + mine[..room];
      PerformConcat(s, done, mine[..room]);
    }
  }

  lemma {:induction false} EnqueuesOfAnnounce(cik: Cik, filings: seq<Filing>)
    ensures Enqueues(Announce(cik, filings)) == |filings|
    ensures |Announce(cik, filings)| == 2 * |filings|
  {
    if filings != [] {
      var rest := Announce(cik, filings[1..]);
      var pair := [Enqueue(Job(cik, filings[0])), Record(filings[0].accession)];
      EnqueuesOfAnnounce(cik, filings[1..]);
      EnqueuesConcat(pair, rest);
      assert pair[1..] == [Record(filings[0].accession)];
      assert Enqueues(pair) == 1;
    }
  }

  /** The cycle after its first `i` companies, with room for `left` more writes. */
  ghost predicate CheckedUpTo(s: State, c: Cycle, earliest: int, i: nat, done: seq<Effect>, here: State,
                              left: nat, found: nat, failures: nat)
    requires c.Valid() && i <= |c.universe|
  {
    && EffectsFrom(s, c, earliest, 0) == done + EffectsFrom(here, c, earliest, i)
    && MissedFrom(s, c, earliest, 0) == failures + MissedFrom(here, c, earliest, i)
    && |done| + left == c.stopAfter && here == Perform(s, done) && found == Enqueues(done)
  }

  /** The industry's write leaves all but the industries alone. */
  lemma IndustryOnly(s: State, cik: Cik, industry: Option<string>)
    ensures var t := Perform(s, IndustryEffects(cik, industry)); t == s.(industries := t.industries)
    ensures industry.Some? ==> Perform(s, IndustryEffects(cik, industry)) == Apply(s, SetIndustry(cik, industry.value))
    ensures Enqueues(IndustryEffects(cik, industry)) == 0
  {
    if industry.Some? {
      PerformOneMore(s, [], SetIndustry(cik, industry.value));
      assert [] + [SetIndustry(cik, industry.value)] == IndustryEffects(cik, industry);
    }
  }

  /** What a document's writes come to, cut anywhere. */
  lemma DocumentWrites(s: State, cik: Cik, filings: seq<Filing>, industry: Option<string>, earliest: int, left: nat)
    ensures var first, unseen := IndustryEffects(cik, industry), NewFilings(filings, earliest, s.ledger);
            var t, rest := Perform(s, first), Announce(cik, unseen);
            && (industry.Some? ==> t == Apply(s, SetIndustry(cik, industry.value))) && (industry.None? ==> t == s)
            && t == s.(industries := t.industries)
            && Perform(s, first + rest) == Perform(t, rest) && Enqueues(first + rest) == |unseen|
            && (|first| <= left < |first + rest| ==>
                    Perform(s, (first + rest)[..left]) == Perform(t, rest[..left - |first|]))
            && (left < |first| ==> left == 0 && industry.Some? && Perform(s, (first + rest)[..left]) == s)
  {
    var first, unseen := IndustryEffects(cik, industry), NewFilings(filings, earliest, s.ledger);
    var rest := Announce(cik, unseen);
    IndustryOnly(s, cik, industry);
    PerformConcat(s, first, rest);
    EnqueuesConcat(first, rest);
    EnqueuesOfAnnounce(cik, unseen);
    if |first| <= left < |first + rest| {
      assert (first + rest)[..left] == first + rest[..left - |first|];
      PerformConcat(s, first, rest[..left - |first|]);
    }
  }

  lemma EffectsNext(here: State, c: Cycle, earliest: int, i: nat) returns (rest: seq<Effect>)
    requires c.Valid() && i < |c.universe|
    ensures var mine := CompanyEffects(here, c.universe[i], c.answers[i], earliest);
            && rest == EffectsFrom(Perform(here, mine), c, earliest, i + 1)
            && EffectsFrom(here, c, earliest, i) == mine + rest
  {
    rest := EffectsFrom(Perform(here, CompanyEffects(here, c.universe[i], c.answers[i], earliest)), c, earliest, i + 1);
  }

  /** The i-th company's writes come next, when there is room for them all. */
  lemma CheckNext(s: State, c: Cycle, earliest: int, i: nat, done: seq<Effect>, here: State,
                  left: nat, found: nat, failures: nat)
    requires c.Valid() && i < |c.universe| && CheckedUpTo(s, c, earliest, i, done, here, left, found, failures)
    requires |CompanyEffects(here, c.universe[i], c.answers[i], earliest)| <= left
    ensures var mine := CompanyEffects(here, c.universe[i], c.answers[i], earliest);
            CheckedUpTo(s, c, earliest, i + 1, done + mine, Perform(here, mine), left - |mine|,
                        found + Enqueues(mine),
                        failures + if Missed(here, c.universe[i], c.answers[i]) then 1 else 0)
  {
    var rest := EffectsNext(here, c, earliest, i);
    CutInside(s, done, CompanyEffects(here, c.universe[i], c.answers[i], earliest), rest, left);
  }

  /** And when there is not. */
  lemma StopNext(s: State, c: Cycle, earliest: int, i: nat, done: seq<Effect>, here: State,
                 left: nat, found: nat, failures: nat)
    requires c.Valid() && i < |c.universe| && CheckedUpTo(s, c, earliest, i, done, here, left, found, failures)
    requires left < |CompanyEffects(here, c.universe[i], c.answers[i], earliest)|
    ensures var mine := CompanyEffects(here, c.universe[i], c.answers[i], earliest);
            && c.stopAfter < |EffectsFrom(s, c, earliest, 0)|
            && Perform(s, EffectsFrom(s, c, earliest, 0)[..c.stopAfter]) == Perform(here, mine[..left])
  {
    var todo := EffectsFrom(s, c, earliest, 0);
    var rest := EffectsNext(here, c, earliest, i);
    CutWithin(s, todo, done, CompanyEffects(here, c.universe[i], c.answers[i], earliest), rest, left);
  }

  lemma CutWithin(s: State, todo: seq<Effect>, done: seq<Effect>, mine: seq<Effect>, rest: seq<Effect>, left: nat)
    requires todo == done + (mine + rest) && left < |mine|
    ensures |done| + left < |todo| && Perform(s, todo[..|done| + left]) == Perform(Perform(s, done), mine[..left])
  {
    CutInside(s, done, mine, rest, left);
  }

  lemma CheckedAll(s: State, c: Cycle, earliest: int, done: seq<Effect>, here: State, left: nat, found: nat,
          failures: nat)
    requires c.Valid() && CheckedUpTo(s, c, earliest, |c.universe|, done, here, left, found, failures)
    ensures done == EffectsFrom(s, c, earliest, 0) && failures == MissedFrom(s, c, earliest, 0)
  {
    assert done + [] == done;
  }

  /** The three ways a cycle ends: among the companies' writes, at the cursor, or after everything. */
  lemma CycleEnds(s: State, c: Cycle)
    requires c.Valid()
    ensures var body := EffectsFrom(s, c, EarliestDay(s, c.readAt), 0);
            && (c.stopAfter < |body| ==> !Completes(s, c) && AfterCycle(s, c) == Perform(s, body[..c.stopAfter]))
            && (c.stopAfter == |body| && Clean(s, c) ==> !Completes(s, c) && AfterCycle(s, c) == Perform(s, body))
            && (c.stopAfter >= |body| && !Clean(s, c) ==> Completes(s, c) && AfterCycle(s, c) == Perform(s, body))
            && (c.stopAfter > |body| && Clean(s, c) ==>
                  Completes(s, c) && AfterCycle(s, c) == Apply(Perform(s, body), SetCursor(c.startedAt)))
            && Enqueues(Effects(s, c)) == Enqueues(body)
  {
    var body := EffectsFrom(s, c, EarliestDay(s, c.readAt), 0);
    var last := if Clean(s, c) then [SetCursor(c.startedAt)] else [];
    PerformOneMore(s, body, SetCursor(c.startedAt));
    EnqueuesConcat(body, last);
    assert body + [] == body;
    TakeDone(body, last);
    if c.stopAfter < |body| {
      assert (body + last)[..c.stopAfter] == body[..c.stopAfter];
    }
  }

  lemma AnnounceNext(cik: Cik, filings: seq<Filing>, i: nat)
    requires i < |filings|
    ensures Announce(cik, filings[i..])
            == [Enqueue(Job(cik, filings[i])), Record(filings[i].accession)] + Announce(cik, filings[i + 1..])
  {
    assert filings[i..][1..] == filings[i + 1..];
  }

  lemma TakeDone(done: seq<Effect>, rest: seq<Effect>)
    ensures (done + rest)[..|done|] == done
  {
  }

  /** The i-th filing's two writes come next; a stop before either leaves a prefix. */
  lemma AnnouncedOneMore(s: State, cik: Cik, filings: seq<Filing>, i: nat, done: seq<Effect>)
    requires i < |filings| && Announce(cik, filings) == done + Announce(cik, filings[i..])
    ensures var enqueue, record := Enqueue(Job(cik, filings[i])), Record(filings[i].accession);
            var todo := Announce(cik, filings);
            && todo == (done + [enqueue, record]) + Announce(cik, filings[i + 1..])
            && todo[..|done|] == done && todo[..|done| + 1] == done + [enqueue]
            && Perform(s, done + [enqueue]) == Apply(Perform(s, done), enqueue)
            && Perform(s, done + [enqueue, record]) == Apply(Apply(Perform(s, done), enqueue), record)
  {
    var enqueue, record := Enqueue(Job(cik, filings[i])), Record(filings[i].accession);
    var rest := Announce(cik, filings[i + 1..]);
    AnnounceNext(cik, filings, i);
    Associates(done, [enqueue, record], rest);
    TakeDone(done, [enqueue, record] + rest);
    TakeDone(done + [enqueue], [record] + rest);
    assert done + ([enqueue, record] + rest) == (done + [enqueue]) + ([record] + rest);
    PerformOneMore(s, done, enqueue);
    PerformOneMore(s, done + [enqueue], record);
    assert (done + [enqueue]) + [record] == done + [enqueue, record];
  }

  /** The poller with its tables and queue. */
  class FilingPoller {
    var cursor: Option<int>
    var ledger: set<Accession>
    var queue: seq<Job>
    var failing: map<Cik, FailureRow>
    var industries: map<Cik, Option<string>>

    function Contents(): State
      reads this
    {
      State(cursor, ledger, queue, failing, industries)
    }

    constructor (industries: map<Cik, Option<string>>)
      ensures Contents() == Empty(industries)
    {
      cursor, ledger, queue, failing := None, {}, [], map[];
      this.industries := industries;
    }

    /** Of some filings, the accessions that are in the ledger. */
    method FindDiscoveredAccessions(filings: seq<Filing>) returns (found: set<Accession>)
      ensures found <= ledger
      ensures forall f :: f in filings ==> (f.accession in found <==> f.accession in ledger)
    {
      found := set f | f in filings && f.accession in ledger :: f.accession;
    }

    /** The filter the cycle applies to one document. */
    method SelectNew(filings: seq<Filing>, earliest: int) returns (unseen: seq<Filing>)
      ensures unseen == NewFilings(filings, earliest, ledger)
    {
      var already := FindDiscoveredAccessions(filings);
      unseen := [];
      var i := |filings|;
      while i > 0
        invariant 0 <= i <= |filings|
        invariant unseen == NewFilings(filings[i..], earliest, ledger)
      {
        i := i - 1;
        assert filings[i..][1..] == filings[i + 1..];
        if filings[i].day >= earliest && filings[i].accession !in already {
          unseen := [filings[i]] + unseen;
        }
      }
    }

    /** One write, if the process is still there to make it. */
    method Write(e: Effect, left: nat) returns (ok: bool, remaining: nat)
      modifies this
      ensures ok == (left > 0)
      ensures remaining == if ok then left - 1 else 0
      ensures Contents() == if ok then Apply(old(Contents()), e) else old(Contents())
    {
      if left == 0 {
        return false, 0;
      }
      match e {
        case CountFailure(cik) =>
          failing := failing[cik := FailureRow(FailuresOf(Contents(), cik) + 1, IsQuarantined(Contents(), cik))];
        case Quarantine(cik) =>
          failing := failing[cik := FailureRow(FailuresOf(Contents(), cik), true)];
        case SetIndustry(cik, industry) =>
          if cik in industries {
            industries := industries[cik := Some(industry)];
          }
        case Enqueue(job) =>
          queue := queue + [job];
        case Record(accession) =>
          ledger := ledger + {accession};
        case SetCursor(at) =>
          cursor := Some(at);
      }
      return true, left - 1;
    }

    method RecordFailure(cik: Cik, left: nat) returns (ok: bool, remaining: nat)
      modifies this
      ensures var todo := FailureEffects(old(Contents()), cik);
              && ok == (|todo| <= left)
              && remaining == (if ok then left - |todo| else 0)
              && Contents() == Perform(old(Contents()), if ok then todo else todo[..left])
    {
      ghost var s := Contents();
      ghost var todo := FailureEffects(s, cik);
      PerformOneMore(s, [], CountFailure(cik));
      assert todo[..0] == [];
      assert [CountFailure(cik)] == [] + [CountFailure(cik)];
      ok, remaining := Write(CountFailure(cik), left);
      if !ok {
        return;
      }
      if failing[cik].consecutiveFailures >= MAX_CONSECUTIVE_FAILURES && !failing[cik].quarantined {
        assert todo == [CountFailure(cik)] + [Quarantine(cik)];
        assert todo[..1] == [CountFailure(cik)];
        PerformOneMore(s, [CountFailure(cik)], Quarantine(cik));
        ok, remaining := Write(Quarantine(cik), remaining);
      } else {
        assert todo == [CountFailure(cik)];
      }
    }

    /** Enqueues the filings in order, recording each once it is safely on the queue. */
    method AnnounceAll(cik: Cik, unseen: seq<Filing>, left: nat) returns (ok: bool, remaining: nat)
      modifies this
      ensures var todo := Announce(cik, unseen);
              && ok == (|todo| <= left)
              && remaining == (if ok then left - |todo| else 0)
              && Contents() == Perform(old(Contents()), if ok then todo else todo[..left])
    {
      ghost var s := Contents();
      ghost var done: seq<Effect> := [];
      ok, remaining := true, left;
      var i := 0;
      while i < |unseen|
        invariant 0 <= i <= |unseen| && ok && |done| + remaining == left
        invariant Announce(cik, unseen) == done + Announce(cik, unseen[i..])
        invariant Contents() == Perform(s, done)
      {
        var enqueue := Enqueue(Job(cik, unseen[i]));
        var record := Record(unseen[i].accession);
        AnnouncedOneMore(s, cik, unseen, i, done);
        ok, remaining := Write(enqueue, remaining);
        if !ok {
          return;
        }
        ok, remaining := Write(record, remaining);
        if !ok {
          return;
        }
        done := done + [enqueue, record];
        i := i + 1;
      }
      assert done + [] == done;
    }

    /** One company: skip it, note a failed fetch, or announce what its document has that is new. */
    method CheckCompany(cik: Cik, answer: Answer, earliest: int, left: nat)
      returns (ok: bool, remaining: nat, found: nat, missed: bool)
      modifies this
      ensures var todo := CompanyEffects(old(Contents()), cik, answer, earliest);
              && ok == (|todo| <= left)
              && remaining == (if ok then left - |todo| else 0)
              && Contents() == Perform(old(Contents()), if ok then todo else todo[..left])
              && (ok ==> found == Enqueues(todo))
      ensures missed == (answer == FetchFailed && !IsQuarantined(old(Contents()), cik))
    {
      ok, remaining, found, missed := true, left, 0, false;
      MineHasNoCursor(Contents(), cik, answer, earliest);
      if IsQuarantined(Contents(), cik) {
        return;
      }
      match answer {
        case FetchFailed =>
          missed := true;
          ok, remaining := RecordFailure(cik, left);
        case Listed(filings, industry) =>
          DocumentWrites(Contents(), cik, filings, industry, earliest, left);
          if industry.Some? {
            ok, remaining := Write(SetIndustry(cik, industry.value), left);
            if !ok {
              return;
            }
          }
          var unseen := SelectNew(filings, earliest);
          found := |unseen|;
          ok, remaining := AnnounceAll(cik, unseen, remaining);
      }
    }

    /** The loop over the universe. */
    method CheckAll(c: Cycle, earliest: int)
      returns (ok: bool, remaining: nat, newFilingsFound: nat, failures: nat)
      requires c.Valid()
      modifies this
      ensures var todo := EffectsFrom(old(Contents()), c, earliest, 0);
              && ok == (|todo| <= c.stopAfter)
              && remaining == (if ok then c.stopAfter - |todo| else 0)
              && Contents() == Perform(old(Contents()), if ok then todo else todo[..c.stopAfter])
              && (ok ==> newFilingsFound == Enqueues(todo))
      ensures ok ==> failures == MissedFrom(old(Contents()), c, earliest, 0)
    {
      ghost var s := Contents();
      ghost var done: seq<Effect> := [];
      ok, remaining, newFilingsFound, failures := true, c.stopAfter, 0, 0;
      var i := 0;
      while i < |c.universe|
        invariant 0 <= i <= |c.universe| && ok
        invariant CheckedUpTo(s, c, earliest, i, done, Contents(), remaining, newFilingsFound, failures)
      {
        ghost var mine := CompanyEffects(Contents(), c.universe[i], c.answers[i], earliest);
        if |mine| <= remaining {
          CheckNext(s, c, earliest, i, done, Contents(), remaining, newFilingsFound, failures);
        } else {
          StopNext(s, c, earliest, i, done, Contents(), remaining, newFilingsFound, failures);
        }
        var found, missed;
        ok, remaining, found, missed := CheckCompany(c.universe[i], c.answers[i], earliest, remaining);
        if !ok {
          return;
        }
        done := done + mine;
        newFilingsFound := newFilingsFound + found;
        failures := failures + if missed then 1 else 0;
        i := i + 1;
      }
      CheckedAll(s, c, earliest, done, Contents(), remaining, newFilingsFound, failures);
    }

    /** One cycle. A stop, or a call that throws, ends it after the writes made so far. */
    method RunPollCycle(c: Cycle) returns (outcome: Outcome)
      requires c.Valid()
      modifies this
      ensures Contents() == AfterCycle(old(Contents()), c)
      ensures outcome
              == if Completes(old(Contents()), c)
                 then Finished(|c.universe|, Enqueues(Effects(old(Contents()), c)),
                               MissedFrom(old(Contents()), c, EarliestDay(old(Contents()), c.readAt), 0))
                 else Stopped
      ensures outcome.Finished? ==> outcome.newFilingsFound == |queue| - |old(queue)|
      ensures outcome.Finished? && NoRepeats(c.universe) ==>
                outcome.companiesFailed
                == |set j: nat | j < |c.universe| && !IsQuarantined(old(Contents()), c.universe[j])
                                                  && c.answers[j].FetchFailed?|
      ensures cursor == if outcome.Finished? && outcome.companiesFailed == 0 then Some(c.startedAt) else old(cursor)
    {
      ghost var s := Contents();
      CycleReports(s, c);
      var since := if cursor.Some? then cursor.value else c.readAt - DAY_MS;
      var earliest := DayOf(since - FILING_LOOKBACK_DAYS * DAY_MS);
      CycleEnds(s, c);
      var ok, left, newFilingsFound, failures := CheckAll(c, earliest);
      if ok && failures == 0 {
        ok, left := Write(SetCursor(c.startedAt), left);
      }
      outcome := if ok then Finished(|c.universe|, newFilingsFound, failures) else Stopped;
    }
  }

  lemma {:induction false} AnnounceHasNoCursor(cik: Cik, filings: seq<Filing>)
    ensures forall e :: e in Announce(cik, filings) ==> e.Enqueue? || e.Record?
  {
    if filings != [] {
      AnnounceHasNoCursor(cik, filings[1..]);
    }
  }

  lemma MineHasNoCursor(s: State, cik: Cik, answer: Answer, earliest: int)
    ensures forall e :: e in CompanyEffects(s, cik, answer, earliest) ==> !e.SetCursor?
    ensures Missed(s, cik, answer) ==> Enqueues(CompanyEffects(s, cik, answer, earliest)) == 0
  {
    if answer.Listed? {
      AnnounceHasNoCursor(cik, NewFilings(answer.filings, earliest, s.ledger));
    } else {
      var later := FailureEffects(s, cik)[1..];
      assert Enqueues([Quarantine(cik)]) == Enqueues([Quarantine(cik)][1..]) == 0;
      assert Enqueues(later) == 0;
    }
  }

  /** The state after the company's fetch failed so many times in a row. */
  function FailTimes(s: State, cik: Cik, times: nat): State {
    if times == 0 then s
    else
      var before := FailTimes(s, cik, times - 1);
      Perform(before, FailureEffects(before, cik))
  }

  /** One failure counts, and quarantines if it is at least the fifth. */
  lemma FailureWrites(s: State, cik: Cik)
    ensures var t := Perform(s, FailureEffects(s, cik));
            && FailuresOf(t, cik) == FailuresOf(s, cik) + 1
            && (IsQuarantined(t, cik) <==> IsQuarantined(s, cik) || FailuresOf(s, cik) + 1 >= 5)
            && t == s.(failing := t.failing)
  {
    var todo := FailureEffects(s, cik);
    var counted := Apply(s, CountFailure(cik));
    assert Perform(s, todo) == Perform(counted, todo[1..]);
    if todo[1..] == [Quarantine(cik)] {
      assert Perform(counted, todo[1..]) == Perform(Apply(counted, Quarantine(cik)), []);
    } else {
      assert todo[1..] == [];
    }
  }

  /** Failures in a row add up, and the fifth quarantines. */
  lemma {:induction false} FifthFailureQuarantines(s: State, cik: Cik, times: nat)
    ensures var t := FailTimes(s, cik, times);
            && FailuresOf(t, cik) == FailuresOf(s, cik) + times
            && (IsQuarantined(t, cik) <==> IsQuarantined(s, cik) || (times > 0 && FailuresOf(s, cik) + times >= 5))
  {
    if times > 0 {
      FifthFailureQuarantines(s, cik, times - 1);
      FailureWrites(FailTimes(s, cik, times - 1), cik);
    }
  }

  // What a run of cycles keeps.

  /** A cycle, or other processes changing the failure rows and company rows between cycles. */
  datatype Turn =
    | PollCycle(cycle: Cycle)
    | OthersWrite(failing: map<Cik, FailureRow>, industries: map<Cik, Option<string>>)

  ghost predicate ValidTurns(turns: seq<Turn>) {
    forall i :: 0 <= i < |turns| && turns[i].PollCycle? ==> turns[i].cycle.Valid()
  }

  function AfterTurn(s: State, t: Turn): State
    requires t.PollCycle? ==> t.cycle.Valid()
  {
    match t
    case PollCycle(c) => AfterCycle(s, c)
    case OthersWrite(failing, industries) => s.(failing := failing, industries := industries)
  }

  function After(s: State, turns: seq<Turn>): State
    requires ValidTurns(turns)
    decreases |turns|
  {
    if turns == [] then s else After(AfterTurn(s, turns[0]), turns[1..])
  }

  // How often an accession is enqueued.

  function TimesEnqueued(queue: seq<Job>, a: Accession): nat {
    if queue == [] then 0
    else TimesEnqueued(queue[..|queue| - 1], a) + (if queue[|queue| - 1].filing.accession == a then 1 else 0)
  }

  function Recorded(s: State, a: Accession): nat {
    if a in s.ledger then 1 else 0
  }

  /** Every enqueue is of an unrecorded accession and is followed at once by its record. */
  ghost predicate Paired(s: State, effects: seq<Effect>)
    decreases |effects|
  {
    if effects == [] then true
    else match effects[0]
      case Enqueue(job) =>
        && job.filing.accession !in s.ledger
        && |effects| >= 2
        && effects[1] == Record(job.filing.accession)
        && Paired(Apply(Apply(s, effects[0]), effects[1]), effects[2..])
      case Record(_) => false
      case _ => Paired(Apply(s, effects[0]), effects[1..])
  }

  ghost predicate Distinct(filings: seq<Filing>) {
    forall i, j :: 0 <= i < j < |filings| ==> filings[i].accession != filings[j].accession
  }

  lemma {:induction false} NewFilingsAre(filings: seq<Filing>, earliest: int, ledger: set<Accession>)
    ensures forall f :: f in NewFilings(filings, earliest, ledger)
                        <==> f in filings && f.day >= earliest && f.accession !in ledger
    ensures Distinct(filings) ==> Distinct(NewFilings(filings, earliest, ledger))
  {
    if filings != [] {
      var rest := NewFilings(filings[1..], earliest, ledger);
      NewFilingsAre(filings[1..], earliest, ledger);
      assert forall f :: f in filings <==> f == filings[0] || f in filings[1..];
      if Distinct(filings) {
        forall f | f in rest
          ensures f.accession != filings[0].accession
        {
          var k :| 0 <= k < |filings[1..]| && filings[1..][k] == f;
          assert filings[k + 1] == f;
        }
      }
    }
  }

  lemma {:induction false} AnnouncePaired(s: State, cik: Cik, filings: seq<Filing>)
    requires Distinct(filings) && forall f :: f in filings ==> f.accession !in s.ledger
    ensures Paired(s, Announce(cik, filings))
    decreases |filings|
  {
    if filings != [] {
      var es := Announce(cik, filings);
      var t := Apply(Apply(s, es[0]), es[1]);
      assert es[2..] == Announce(cik, filings[1..]);
      forall f | f in filings[1..]
        ensures f.accession !in t.ledger
      {
        var k :| 0 <= k < |filings[1..]| && filings[1..][k] == f;
        assert filings[0].accession != filings[k + 1].accession;
      }
      AnnouncePaired(t, cik, filings[1..]);
    }
  }

  lemma {:induction false} PairedConcat(s: State, a: seq<Effect>, b: seq<Effect>)
    requires Paired(s, a) && Paired(Perform(s, a), b)
    ensures Paired(s, a + b)
    decreases |a|
  {
    if a == [] {
      assert a + b == b;
    } else if a[0].Enqueue? {
      assert (a + b)[2..] == a[2..] + b;
      assert a[1..][1..] == a[2..];
      assert Perform(s, a) == Perform(Apply(Apply(s, a[0]), a[1]), a[2..]);
      PairedConcat(Apply(Apply(s, a[0]), a[1]), a[2..], b);
    } else {
      assert (a + b)[1..] == a[1..] + b;
      PairedConcat(Apply(s, a[0]), a[1..], b);
    }
  }

  ghost predicate DistinctAnswers(c: Cycle) {
    forall i :: 0 <= i < |c.answers| && c.answers[i].Listed? ==> Distinct(c.answers[i].filings)
  }

  lemma {:induction false} EffectsPaired(s: State, c: Cycle, earliest: int, i: nat)
    requires c.Valid() && i <= |c.universe| && DistinctAnswers(c)
    ensures Paired(s, EffectsFrom(s, c, earliest, i))
    decreases |c.universe| - i
  {
    if i < |c.universe| {
      var mine := CompanyEffects(s, c.universe[i], c.answers[i], earliest);
      if c.answers[i].Listed? {
        var first := IndustryEffects(c.universe[i], c.answers[i].industry);
        var unseen := NewFilings(c.answers[i].filings, earliest, s.ledger);
        NewFilingsAre(c.answers[i].filings, earliest, s.ledger);
        IndustryOnly(s, c.universe[i], c.answers[i].industry);
        AnnouncePaired(Perform(s, first), c.universe[i], unseen);
        PairedConcat(s, first, Announce(c.universe[i], unseen));
      }
      assert Paired(s, mine);
      EffectsPaired(Perform(s, mine), c, earliest, i + 1);
      PairedConcat(s, mine, EffectsFrom(Perform(s, mine), c, earliest, i + 1));
    }
  }

  lemma AllEffectsPaired(s: State, c: Cycle)
    requires c.Valid() && DistinctAnswers(c)
    ensures Paired(s, Effects(s, c))
  {
    var body := EffectsFrom(s, c, EarliestDay(s, c.readAt), 0);
    EffectsPaired(s, c, EarliestDay(s, c.readAt), 0);
    PairedConcat(s, body, if Clean(s, c) then [SetCursor(c.startedAt)] else []);
  }

  predicate Enqueued(e: Effect, a: Accession) {
    e.Enqueue? && e.job.filing.accession == a
  }

  lemma EnqueueCounts(s: State, e: Effect, a: Accession)
    ensures TimesEnqueued(Apply(s, e).queue, a) == TimesEnqueued(s.queue, a) + (if Enqueued(e, a) then 1 else 0)
  {
    if e.Enqueue? {
      assert (s.queue + [e.job])[..|s.queue|] == s.queue;
    }
  }

  /** Only the first k writes. */
  function PerformFirst(s: State, effects: seq<Effect>, k: nat): State
    requires k <= |effects|
    decreases k
  {
    if k == 0 then s else PerformFirst(Apply(s, effects[0]), effects[1..], k - 1)
  }

  lemma {:induction false} PerformFirstIsPrefix(s: State, effects: seq<Effect>, k: nat)
    requires k <= |effects|
    ensures PerformFirst(s, effects, k) == Perform(s, effects[..k])
    decreases k
  {
    if k > 0 {
      PerformFirstIsPrefix(Apply(s, effects[0]), effects[1..], k - 1);
      assert effects[..k][1..] == effects[1..][..k - 1];
    }
  }

  function Surplus(s: State, a: Accession): int {
    TimesEnqueued(s.queue, a) - Recorded(s, a)
  }

  lemma SurplusMoves(s: State, e: Effect, a: Accession)
    ensures Surplus(Apply(s, e), a)
            == Surplus(s, a) + (if Enqueued(e, a) then 1 else if e == Record(a) && a !in s.ledger then -1 else 0)
  {
    EnqueueCounts(s, e, a);
  }

  lemma FirstOne(s: State, effects: seq<Effect>, k: nat)
    requires 1 <= k <= |effects|
    ensures PerformFirst(s, effects, k) == PerformFirst(Apply(s, effects[0]), effects[1..], k - 1)
  {
  }

  lemma FirstTwo(s: State, effects: seq<Effect>, k: nat)
    requires 2 <= k <= |effects|
    ensures PerformFirst(s, effects, k) == PerformFirst(Apply(Apply(s, effects[0]), effects[1]), effects[2..], k - 2)
  {
    FirstOne(s, effects, k);
    FirstOne(Apply(s, effects[0]), effects[1..], k - 1);
    assert effects[1..][1..] == effects[2..];
  }

  /** An enqueue with its record leaves the account level. */
  lemma PairIsLevel(s: State, effects: seq<Effect>, a: Accession)
    requires Paired(s, effects) && effects != [] && effects[0].Enqueue?
    ensures |effects| >= 2 && !effects[1].Enqueue?
    ensures Surplus(Apply(Apply(s, effects[0]), effects[1]), a) == Surplus(s, a)
    ensures Paired(Apply(Apply(s, effects[0]), effects[1]), effects[2..])
  {
    SurplusMoves(s, effects[0], a);
    SurplusMoves(Apply(s, effects[0]), effects[1], a);
  }

  /** And so does anything else. */
  lemma SingleIsLevel(s: State, effects: seq<Effect>, a: Accession)
    requires Paired(s, effects) && effects != [] && !effects[0].Enqueue?
    ensures Surplus(Apply(s, effects[0]), a) == Surplus(s, a)
    ensures Paired(Apply(s, effects[0]), effects[1..])
  {
    SurplusMoves(s, effects[0], a);
  }

  /** Cutting a paired list anywhere leaves enqueues and records level, but for one enqueue just before the cut. */
  lemma {:induction false} PrefixBalance(s: State, effects: seq<Effect>, k: nat, a: Accession)
    requires Paired(s, effects) && k <= |effects|
    ensures Surplus(PerformFirst(s, effects, k), a)
            == Surplus(s, a) + (if k > 0 && Enqueued(effects[k - 1], a) then 1 else 0)
    decreases k
  {
    if k == 0 {
    } else if !effects[0].Enqueue? {
      SingleIsLevel(s, effects, a);
      FirstOne(s, effects, k);
      PrefixBalance(Apply(s, effects[0]), effects[1..], k - 1, a);
      LastOfPrefix(effects, 1, k);
    } else if k == 1 {
      SurplusMoves(s, effects[0], a);
      FirstOne(s, effects, 1);
    } else {
      PairIsLevel(s, effects, a);
      FirstTwo(s, effects, k);
      PrefixBalance(Apply(Apply(s, effects[0]), effects[1]), effects[2..], k - 2, a);
      LastOfPrefix(effects, 2, k);
    }
  }

  lemma LastOfPrefix(effects: seq<Effect>, n: nat, k: nat)
    requires n <= k <= |effects|
    ensures k > n ==> effects[n..][k - n - 1] == effects[k - 1]
  {
  }

  /** The same of performing a prefix. */
  lemma PlanBalance(s: State, plan: seq<Effect>, k: nat, a: Accession)
    requires Paired(s, plan) && k <= |plan|
    ensures Surplus(Perform(s, plan[..k]), a)
            == Surplus(s, a) + if k > 0 && Enqueued(plan[..k][|plan[..k]| - 1], a) then 1 else 0
  {
    PrefixBalance(s, plan, k, a);
    PerformFirstIsPrefix(s, plan, k);
  }

  /** The cycle stopped after putting the accession on the queue and before recording it. */
  predicate StoppedBetween(s: State, t: Turn, a: Accession)
    requires t.PollCycle? ==> t.cycle.Valid()
  {
    t.PollCycle? && !Completes(s, t.cycle) && Written(s, t.cycle) != []
    && Enqueued(Written(s, t.cycle)[|Written(s, t.cycle)| - 1], a)
  }

  function StopsBetween(s: State, turns: seq<Turn>, a: Accession): nat
    requires ValidTurns(turns)
    decreases |turns|
  {
    if turns == [] then 0
    else (if StoppedBetween(s, turns[0], a) then 1 else 0) + StopsBetween(AfterTurn(s, turns[0]), turns[1..], a)
  }

  lemma {:induction false} PairedEndsWithNoEnqueue(s: State, effects: seq<Effect>)
    requires Paired(s, effects) && effects != []
    ensures !effects[|effects| - 1].Enqueue?
    decreases |effects|
  {
    if effects[0].Enqueue? {
      if |effects| > 2 {
        PairedEndsWithNoEnqueue(Apply(Apply(s, effects[0]), effects[1]), effects[2..]);
      }
    } else if |effects| > 1 {
      PairedEndsWithNoEnqueue(Apply(s, effects[0]), effects[1..]);
    }
  }

  lemma CompletedBalance(s: State, c: Cycle, a: Accession)
    requires c.Valid() && DistinctAnswers(c) && Completes(s, c)
    ensures Surplus(AfterCycle(s, c), a) == Surplus(s, a)
  {
    var plan := Effects(s, c);
    AllEffectsPaired(s, c);
    WholePrefix(plan);
    PlanBalance(s, plan, |plan|, a);
    if plan != [] {
      PairedEndsWithNoEnqueue(s, plan);
    }
  }

  lemma StoppedBalance(s: State, c: Cycle, a: Accession)
    requires c.Valid() && DistinctAnswers(c) && !Completes(s, c)
    ensures Surplus(AfterCycle(s, c), a) == Surplus(s, a) + if StoppedBetween(s, PollCycle(c), a) then 1 else 0
  {
    AllEffectsPaired(s, c);
    StopLeaves(s, c, a);
    PlanBalance(s, Effects(s, c), c.stopAfter, a);
  }

  /** What a stopped cycle has done. */
  lemma StopLeaves(s: State, c: Cycle, a: Accession)
    requires c.Valid() && !Completes(s, c)
    ensures c.stopAfter < |Effects(s, c)|
    ensures var written := Effects(s, c)[..c.stopAfter];
            && AfterCycle(s, c) == Perform(s, written)
            && (StoppedBetween(s, PollCycle(c), a) <==> written != [] && Enqueued(written[|written| - 1], a))
  {
  }

  lemma CycleBalance(s: State, t: Turn, a: Accession)
    requires t.PollCycle? ==> t.cycle.Valid() && DistinctAnswers(t.cycle)
    ensures Surplus(AfterTurn(s, t), a) == Surplus(s, a) + if StoppedBetween(s, t, a) then 1 else 0
  {
    if t.PollCycle? {
      if Completes(s, t.cycle) {
        CompletedBalance(s, t.cycle, a);
      } else {
        StoppedBalance(s, t.cycle, a);
      }
    }
  }

  lemma {:induction false} RunBalance(s: State, turns: seq<Turn>, a: Accession)
    requires ValidTurns(turns)
    requires forall i :: 0 <= i < |turns| && turns[i].PollCycle? ==> DistinctAnswers(turns[i].cycle)
    ensures var u := After(s, turns);
            Surplus(u, a) == Surplus(s, a) + StopsBetween(s, turns, a)
    decreases |turns|
  {
    if turns != [] {
      CycleBalance(s, turns[0], a);
      RunBalance(AfterTurn(s, turns[0]), turns[1..], a);
    }
  }

  function Empty(industries: map<Cik, Option<string>>): State {
    State(None, {}, [], map[], industries)
  }

  /**
   * From empty tables, cycles never overlapping: an accession has been enqueued once if it is recorded,
   * plus once for each stop between its enqueue and its record. So the ledger holds only what was
   * enqueued, and two companies listing one filing do not enqueue it twice.
   */
  lemma EnqueuedOncePlusStops(industries: map<Cik, Option<string>>, turns: seq<Turn>, a: Accession)
    requires ValidTurns(turns)
    requires forall i :: 0 <= i < |turns| && turns[i].PollCycle? ==> DistinctAnswers(turns[i].cycle)
    ensures var u := After(Empty(industries), turns);
            && TimesEnqueued(u.queue, a) == Recorded(u, a) + StopsBetween(Empty(industries), turns, a)
            && (a in u.ledger ==> exists i :: 0 <= i < |u.queue| && u.queue[i].filing.accession == a)
  {
    RunBalance(Empty(industries), turns, a);
    TimesEnqueuedWitness(After(Empty(industries), turns).queue, a);
  }

  /** A cycle over one company that lists one filing. */
  function CycleOfOne(cik: Cik, f: Filing, at: int, stopAfter: nat): Cycle {
    Cycle(at, at, [cik], [Listed([f], None)], [at], stopAfter)
  }

  /** And such a stop does enqueue a filing twice: once before it, once in the cycle that follows. */
  lemma StopEnqueuesTwice(industries: map<Cik, Option<string>>, cik: Cik, f: Filing, at: int)
    requires f.day >= EarliestDay(Empty(industries), at)
    ensures var turns := [PollCycle(CycleOfOne(cik, f, at, 1)), PollCycle(CycleOfOne(cik, f, at, 3))];
            && ValidTurns(turns)
            && After(Empty(industries), turns).queue == [Job(cik, f), Job(cik, f)]
            && After(Empty(industries), turns).ledger == {f.accession}
  {
    var s := Empty(industries);
    var cut, whole := CycleOfOne(cik, f, at, 1), CycleOfOne(cik, f, at, 3);
    var turns := [PollCycle(cut), PollCycle(whole)];
    EffectsOfOne(s, cik, f, at, 1);
    var s1 := AfterTurn(s, turns[0]);
    var enqueue, record := Enqueue(Job(cik, f)), Record(f.accession);
    PerformOneMore(s, [], enqueue);
    assert [] + [enqueue] == [enqueue] && [enqueue, record, SetCursor(at)][..1] == [enqueue];
    assert s1 == Apply(s, enqueue);
    EffectsOfOne(s1, cik, f, at, 3);
    PerformOneMore(s1, [], enqueue);
    PerformOneMore(s1, [enqueue], record);
    PerformOneMore(s1, [enqueue, record], SetCursor(at));
    assert [enqueue] + [record] == [enqueue, record];
    assert [enqueue, record] + [SetCursor(at)] == [enqueue, record, SetCursor(at)];
    assert turns[1..] == [PollCycle(whole)] && turns[1..][1..] == [];
    assert After(s, turns) == After(s1, turns[1..]) == AfterTurn(s1, turns[1]);
  }

  lemma EffectsOfOne(s: State, cik: Cik, f: Filing, at: int, stopAfter: nat)
    requires s.cursor.None? && s.ledger == {} && s.failing == map[] && f.day >= EarliestDay(s, at)
    ensures Effects(s, CycleOfOne(cik, f, at, stopAfter))
            == [Enqueue(Job(cik, f)), Record(f.accession), SetCursor(at)]
  {
    var c, earliest := CycleOfOne(cik, f, at, stopAfter), EarliestDay(s, at);
    assert [f][1..] == [];
    assert NewFilings([f], earliest, s.ledger) == [f];
    assert Announce(cik, [f]) == [Enqueue(Job(cik, f)), Record(f.accession)] + [];
    assert IndustryEffects(cik, None) + Announce(cik, [f]) == Announce(cik, [f]);
    var mine := CompanyEffects(s, cik, c.answers[0], earliest);
    assert mine == [Enqueue(Job(cik, f)), Record(f.accession)];
    assert EffectsFrom(s, c, earliest, 0) == mine + EffectsFrom(Perform(s, mine), c, earliest, 1) == mine;
    assert MissedFrom(s, c, earliest, 0) == MissedFrom(Perform(s, mine), c, earliest, 1) == 0;
  }

  lemma {:induction false} TimesEnqueuedWitness(queue: seq<Job>, a: Accession)
    ensures TimesEnqueued(queue, a) > 0 ==> exists i :: 0 <= i < |queue| && queue[i].filing.accession == a
    decreases |queue|
  {
    if queue != [] {
      TimesEnqueuedWitness(queue[..|queue| - 1], a);
    }
  }

  // Which filings a run finds.

  function IndexOf(universe: seq<Cik>, cik: Cik): (i: nat)
    requires cik in universe
    ensures i < |universe| && universe[i] == cik && cik !in universe[..i]
  {
    if universe[0] == cik then 0 else 1 + IndexOf(universe[1..], cik)
  }

  lemma {:induction false} LedgerGrows(s: State, effects: seq<Effect>)
    ensures s.ledger <= Perform(s, effects).ledger
    decreases |effects|
  {
    if effects != [] {
      LedgerGrows(Apply(s, effects[0]), effects[1..]);
    }
  }

  lemma {:induction false} CursorStays(s: State, effects: seq<Effect>)
    requires forall e :: e in effects ==> !e.SetCursor?
    ensures Perform(s, effects).cursor == s.cursor
    decreases |effects|
  {
    if effects != [] {
      CursorStays(Apply(s, effects[0]), effects[1..]);
    }
  }

  lemma {:induction false} BodyHasNoCursor(s: State, c: Cycle, earliest: int, i: nat)
    requires c.Valid() && i <= |c.universe|
    ensures forall e :: e in EffectsFrom(s, c, earliest, i) ==> !e.SetCursor?
    decreases |c.universe| - i
  {
    if i < |c.universe| {
      MineHasNoCursor(s, c.universe[i], c.answers[i], earliest);
      BodyHasNoCursor(Perform(s, CompanyEffects(s, c.universe[i], c.answers[i], earliest)), c, earliest, i + 1);
    }
  }

  lemma {:induction false} CleanMeansFetched(s: State, c: Cycle, earliest: int, i: nat, cik: Cik, j: nat)
    requires c.Valid() && i <= j < |c.universe| && c.universe[j] == cik && cik !in c.universe[i..j]
    requires !IsQuarantined(s, cik)
    requires MissedFrom(s, c, earliest, i) == 0
    ensures c.answers[j].Listed?
    decreases |c.universe| - i
  {
    if i < j {
      assert c.universe[i] == c.universe[i..j][0];
      assert c.universe[i + 1..j] == c.universe[i..j][1..];
      OthersStay(s, c.universe[i], c.answers[i], earliest, cik);
      var mine := CompanyEffects(s, c.universe[i], c.answers[i], earliest);
      CleanMeansFetched(Perform(s, mine), c, earliest, i + 1, cik, j);
    }
  }

  lemma {:induction false} QueueGrows(s: State, effects: seq<Effect>)
    ensures |Perform(s, effects).queue| == |s.queue| + Enqueues(effects)
    decreases |effects|
  {
    if effects != [] {
      QueueGrows(Apply(s, effects[0]), effects[1..]);
    }
  }

  /** What a completed cycle counts. */
  lemma CycleReports(s: State, c: Cycle)
    requires c.Valid()
    ensures Completes(s, c) ==> |AfterCycle(s, c).queue| == |s.queue| + Enqueues(Effects(s, c))
    ensures NoRepeats(c.universe) ==>
              MissedFrom(s, c, EarliestDay(s, c.readAt), 0)
              == |set j: nat | j < |c.universe| && !IsQuarantined(s, c.universe[j]) && c.answers[j].FetchFailed?|
    ensures AfterCycle(s, c).cursor == if Completes(s, c) && Clean(s, c) then Some(c.startedAt) else s.cursor
  {
    QueueGrows(s, Effects(s, c));
    CursorIf(s, c);
    if NoRepeats(c.universe) {
      MissedAreUncovered(s, c, EarliestDay(s, c.readAt), 0);
      assert UncoveredFrom(s, c, 0)
             == set j: nat | j < |c.universe| && !IsQuarantined(s, c.universe[j]) && c.answers[j].FetchFailed?;
    }
  }

  /** What becomes of one company's rows, when they are left alone. */
  predicate SameRows(s: State, t: State, cik: Cik) {
    && (cik in s.failing <==> cik in t.failing) && (cik in s.failing ==> s.failing[cik] == t.failing[cik])
    && (cik in s.industries <==> cik in t.industries)
    && (cik in s.industries ==> s.industries[cik] == t.industries[cik])
  }

  predicate Concerns(e: Effect, cik: Cik) {
    (e.CountFailure? || e.Quarantine? || e.SetIndustry?) && e.cik == cik
  }

  lemma {:induction false} RowsStay(s: State, effects: seq<Effect>, cik: Cik)
    requires forall e :: e in effects ==> !Concerns(e, cik)
    ensures SameRows(s, Perform(s, effects), cik)
    decreases |effects|
  {
    if effects != [] {
      assert effects[0] in effects;
      RowsStay(Apply(s, effects[0]), effects[1..], cik);
    }
  }

  /** A company's check touches no other company's rows. */
  lemma OthersStay(s: State, cik: Cik, answer: Answer, earliest: int, other: Cik)
    requires cik != other
    ensures SameRows(s, Perform(s, CompanyEffects(s, cik, answer, earliest)), other)
  {
    if answer.Listed? {
      AnnounceHasNoCursor(cik, NewFilings(answer.filings, earliest, s.ledger));
    }
    RowsStay(s, CompanyEffects(s, cik, answer, earliest), other);
  }

  /** And only a failed fetch touches a failure row. */
  lemma CheckedKeepsRows(s: State, cik: Cik, answer: Answer, earliest: int)
    requires IsQuarantined(s, cik) || answer.Listed?
    ensures Perform(s, CompanyEffects(s, cik, answer, earliest)).failing == s.failing
  {
    if !IsQuarantined(s, cik) {
      var first := IndustryEffects(cik, answer.industry);
      var rest := Announce(cik, NewFilings(answer.filings, earliest, s.ledger));
      IndustryOnly(s, cik, answer.industry);
      PerformConcat(s, first, rest);
      AnnounceHasNoCursor(cik, NewFilings(answer.filings, earliest, s.ledger));
      OnlyQueueAndLedger(Perform(s, first), rest);
    }
  }

  lemma {:induction false} OnlyQueueAndLedger(s: State, effects: seq<Effect>)
    requires forall e :: e in effects ==> e.Enqueue? || e.Record?
    ensures var t := Perform(s, effects); t == s.(queue := t.queue, ledger := t.ledger)
    decreases |effects|
  {
    if effects != [] {
      assert effects[0] in effects;
      OnlyQueueAndLedger(Apply(s, effects[0]), effects[1..]);
    }
  }

  /** The company could have been checked and was not. */
  predicate Uncovered(s: State, c: Cycle, j: nat)
    requires c.Valid() && j < |c.universe|
  {
    !IsQuarantined(s, c.universe[j]) && c.answers[j].FetchFailed?
  }

  /** None is missed exactly if, as the rows stood at the start, all but quarantined companies were fetched. */
  lemma {:induction false} NoneMissedIff(s: State, c: Cycle, earliest: int, i: nat)
    requires c.Valid() && i <= |c.universe|
    ensures MissedFrom(s, c, earliest, i) == 0 <==> forall j :: i <= j < |c.universe| ==> !Uncovered(s, c, j)
    decreases |c.universe| - i
  {
    if i < |c.universe| {
      if Uncovered(s, c, i) {
        assert MissedFrom(s, c, earliest, i) > 0;
      } else {
        CheckedKeepsRows(s, c.universe[i], c.answers[i], earliest);
        var t := Perform(s, CompanyEffects(s, c.universe[i], c.answers[i], earliest));
        NoneMissedIff(t, c, earliest, i + 1);
        assert forall j :: i < j < |c.universe| ==> Uncovered(t, c, j) == Uncovered(s, c, j);
      }
    }
  }

  ghost predicate NoRepeats(universe: seq<Cik>) {
    forall i, j :: 0 <= i < j < |universe| ==> universe[i] != universe[j]
  }

  function UncoveredFrom(s: State, c: Cycle, i: nat): set<nat>
    requires c.Valid()
  {
    set j: nat | i <= j < |c.universe| && Uncovered(s, c, j)
  }

  /** How many are missed, when no company is listed twice. */
  lemma {:induction false} MissedAreUncovered(s: State, c: Cycle, earliest: int, i: nat)
    requires c.Valid() && i <= |c.universe| && NoRepeats(c.universe)
    ensures MissedFrom(s, c, earliest, i) == |UncoveredFrom(s, c, i)|
    decreases |c.universe| - i
  {
    if i < |c.universe| {
      var t := Perform(s, CompanyEffects(s, c.universe[i], c.answers[i], earliest));
      MissedAreUncovered(t, c, earliest, i + 1);
      forall j | i < j < |c.universe|
        ensures Uncovered(t, c, j) == Uncovered(s, c, j)
      {
        OthersStay(s, c.universe[i], c.answers[i], earliest, c.universe[j]);
      }
      UncoveredOneMore(s, t, c, i);
    }
  }

  lemma UncoveredOneMore(s: State, t: State, c: Cycle, i: nat)
    requires c.Valid() && i < |c.universe|
    requires forall j :: i < j < |c.universe| ==> Uncovered(t, c, j) == Uncovered(s, c, j)
    ensures |UncoveredFrom(s, c, i)| == (if Uncovered(s, c, i) then 1 else 0) + |UncoveredFrom(t, c, i + 1)|
  {
    var rest := UncoveredFrom(t, c, i + 1);
    if Uncovered(s, c, i) {
      assert UncoveredFrom(s, c, i) == {i} + rest && i !in rest;
    } else {
      assert UncoveredFrom(s, c, i) == rest;
    }
  }

  /**
   * What a cycle does to the cursor: a completed one moves it to its own start exactly if every company that was not
   * quarantined when it started had its document fetched; anything else leaves it.
   */
  lemma CursorAfterCycle(s: State, c: Cycle)
    requires c.Valid()
    ensures AfterCycle(s, c).cursor
            == if Completes(s, c)
                  && forall j :: 0 <= j < |c.universe| && !IsQuarantined(s, c.universe[j]) ==> c.answers[j].Listed?
               then Some(c.startedAt) else s.cursor
  {
    NoneMissedIff(s, c, EarliestDay(s, c.readAt), 0);
    assert forall j :: 0 <= j < |c.universe| ==>
             (Uncovered(s, c, j) <==> !IsQuarantined(s, c.universe[j]) && !c.answers[j].Listed?);
    CursorIf(s, c);
  }

  lemma CursorIf(s: State, c: Cycle)
    requires c.Valid()
    ensures AfterCycle(s, c).cursor == if Completes(s, c) && Clean(s, c) then Some(c.startedAt) else s.cursor
  {
    var body := EffectsFrom(s, c, EarliestDay(s, c.readAt), 0);
    BodyHasNoCursor(s, c, EarliestDay(s, c.readAt), 0);
    if Completes(s, c) && Clean(s, c) {
      PerformOneMore(s, body, SetCursor(c.startedAt));
    } else {
      assert Completes(s, c) || Written(s, c) == body[..c.stopAfter];
      CursorStays(s, Written(s, c));
    }
  }

  lemma {:induction false} AnnounceRecords(s: State, cik: Cik, filings: seq<Filing>)
    ensures Perform(s, Announce(cik, filings)).ledger == s.ledger + (set f | f in filings :: f.accession)
    decreases |filings|
  {
    if filings != [] {
      var es := Announce(cik, filings);
      var t := Apply(Apply(s, es[0]), es[1]);
      assert es[2..] == Announce(cik, filings[1..]);
      assert es[1..][1..] == es[2..];
      assert Perform(s, es) == Perform(t, es[2..]);
      AnnounceRecords(t, cik, filings[1..]);
      assert forall f :: f in filings <==> f == filings[0] || f in filings[1..];
    }
  }

  /** A cycle that gets through finds every filing in the window that a company it could check lists. */
  lemma {:induction false} FullCycleFinds(s: State, c: Cycle, earliest: int, i: nat, cik: Cik, j: nat, f: Filing)
    requires c.Valid() && i <= j < |c.universe| && c.universe[j] == cik && cik !in c.universe[i..j]
    requires !IsQuarantined(s, cik)
    requires c.answers[j].Listed? && f in c.answers[j].filings && f.day >= earliest
    ensures f.accession in Perform(s, EffectsFrom(s, c, earliest, i)).ledger
    decreases |c.universe| - i
  {
    var mine := CompanyEffects(s, c.universe[i], c.answers[i], earliest);
    var t := Perform(s, mine);
    var rest := EffectsFrom(t, c, earliest, i + 1);
    PerformConcat(s, mine, rest);
    if i < j {
      assert c.universe[i] == c.universe[i..j][0];
      assert c.universe[i + 1..j] == c.universe[i..j][1..];
      OthersStay(s, c.universe[i], c.answers[i], earliest, cik);
      FullCycleFinds(t, c, earliest, i + 1, cik, j, f);
    } else {
      var first := IndustryEffects(cik, c.answers[j].industry);
      var unseen := NewFilings(c.answers[j].filings, earliest, s.ledger);
      NewFilingsAre(c.answers[j].filings, earliest, s.ledger);
      IndustryOnly(s, cik, c.answers[j].industry);
      PerformConcat(s, first, Announce(cik, unseen));
      AnnounceRecords(Perform(s, first), cik, unseen);
      LedgerGrows(t, rest);
    }
  }

  /** Recorded, or still ahead of the cursor: the cursor is no later than the time the filing appeared. */
  ghost predicate Tracked(s: State, f: Filing, appeared: int) {
    f.accession in s.ledger || (s.cursor.Some? && s.cursor.value <= appeared)
  }

  /**
   * The cycle covers the company, which is not quarantined; its fetches happen after its start, and from
   * the time the filing appeared on, SEC's document for the company lists it.
   */
  ghost predicate Watches(s: State, c: Cycle, cik: Cik, f: Filing, appeared: int) {
    && c.Valid()
    && cik in c.universe
    && !IsQuarantined(s, cik)
    && forall i :: 0 <= i < |c.universe| ==>
         && c.startedAt <= c.fetchedAt[i]
         && (c.universe[i] == cik && c.answers[i].Listed? && appeared <= c.fetchedAt[i] ==> f in c.answers[i].filings)
  }

  /** The cycle finishes, and got the company's document after the filing had appeared. */
  ghost predicate Checks(s: State, c: Cycle, cik: Cik, appeared: int)
    requires c.Valid() && cik in c.universe
  {
    var j := IndexOf(c.universe, cik);
    Completes(s, c) && c.answers[j].Listed? && appeared <= c.fetchedAt[j]
  }

  /** What a completed cycle over distinct companies does to each company's rows. */
  lemma {:induction false} RowsAfterCompanies(s: State, c: Cycle, earliest: int, i: nat, j: nat)
    requires c.Valid() && i <= j < |c.universe| && NoRepeats(c.universe)
    ensures RowsFollow(s, Perform(s, EffectsFrom(s, c, earliest, i)), c.universe[j], c.answers[j])
    decreases |c.universe| - i
  {
    var mine := CompanyEffects(s, c.universe[i], c.answers[i], earliest);
    var t := Perform(s, mine);
    PerformConcat(s, mine, EffectsFrom(t, c, earliest, i + 1));
    if i < j {
      OthersStay(s, c.universe[i], c.answers[i], earliest, c.universe[j]);
      RowsAfterCompanies(t, c, earliest, i + 1, j);
    } else {
      RowsAfterCheck(s, c.universe[i], c.answers[i], earliest);
      OthersLeave(t, c, earliest, i + 1, c.universe[j]);
    }
  }

  /**
   * A failed fetch counts one more failure and quarantines from the fifth on; a document sets the industry it has,
   * of a company that has a row. Nothing else changes, and nothing at all for a quarantined company.
   */
  predicate RowsFollow(s: State, t: State, cik: Cik, answer: Answer) {
    var skipped := cik in s.failing && s.failing[cik].quarantined;
    var before := if cik in s.failing then s.failing[cik].consecutiveFailures else 0;
    && (if !skipped && answer.FetchFailed?
        then cik in t.failing && t.failing[cik] == FailureRow(before + 1, before + 1 >= 5)
        else (cik in t.failing <==> cik in s.failing) && (cik in s.failing ==> t.failing[cik] == s.failing[cik]))
    && (cik in t.industries <==> cik in s.industries)
    && (cik in s.industries ==>
          t.industries[cik] == if !skipped && answer.Listed? && answer.industry.Some? then answer.industry
                               else s.industries[cik])
  }

  lemma RowsAfterCheck(s: State, cik: Cik, answer: Answer, earliest: int)
    ensures RowsFollow(s, Perform(s, CompanyEffects(s, cik, answer, earliest)), cik, answer)
  {
    if !IsQuarantined(s, cik) && answer.FetchFailed? {
      FailureWrites(s, cik);
    } else if !IsQuarantined(s, cik) {
      var rest := Announce(cik, NewFilings(answer.filings, earliest, s.ledger));
      IndustryOnly(s, cik, answer.industry);
      PerformConcat(s, IndustryEffects(cik, answer.industry), rest);
      AnnounceHasNoCursor(cik, NewFilings(answer.filings, earliest, s.ledger));
      OnlyQueueAndLedger(Perform(s, IndustryEffects(cik, answer.industry)), rest);
    }
  }

  lemma {:induction false} OthersLeave(s: State, c: Cycle, earliest: int, i: nat, cik: Cik)
    requires c.Valid() && i <= |c.universe| && cik !in c.universe[i..]
    ensures SameRows(s, Perform(s, EffectsFrom(s, c, earliest, i)), cik)
    decreases |c.universe| - i
  {
    if i < |c.universe| {
      var mine := CompanyEffects(s, c.universe[i], c.answers[i], earliest);
      assert c.universe[i] == c.universe[i..][0] && c.universe[i + 1..] == c.universe[i..][1..];
      OthersStay(s, c.universe[i], c.answers[i], earliest, cik);
      OthersLeave(Perform(s, mine), c, earliest, i + 1, cik);
      PerformConcat(s, mine, EffectsFrom(Perform(s, mine), c, earliest, i + 1));
    }
  }

  lemma RowsAfterCycle(s: State, c: Cycle, j: nat)
    requires c.Valid() && NoRepeats(c.universe) && Completes(s, c) && j < |c.universe|
    ensures RowsFollow(s, AfterCycle(s, c), c.universe[j], c.answers[j])
  {
    RowsAfterCompanies(s, c, EarliestDay(s, c.readAt), 0, j);
    CursorOnlyCursor(s, c);
  }

  /** Apart from the cursor, a completed cycle leaves what its companies' writes leave. */
  lemma CursorOnlyCursor(s: State, c: Cycle)
    requires c.Valid() && Completes(s, c)
    ensures var body := Perform(s, EffectsFrom(s, c, EarliestDay(s, c.readAt), 0));
            AfterCycle(s, c) == body.(cursor := AfterCycle(s, c).cursor)
  {
    var body := EffectsFrom(s, c, EarliestDay(s, c.readAt), 0);
    if Clean(s, c) {
      PerformOneMore(s, body, SetCursor(c.startedAt));
    } else {
      assert body + [] == body;
    }
  }

  /** Where a job comes from: the i-th company's n-th filing. */
  datatype Place = Place(company: nat, filing: nat)

  /** Company after company, and within a document in its order. */
  ghost predicate InOrder(places: seq<Place>) {
    forall j, k :: 0 <= j < k < |places| ==>
      places[j].company < places[k].company
      || (places[j].company == places[k].company && places[j].filing < places[k].filing)
  }

  /** The job is of the filing at that place: in the window, of a company whose document was read. */
  ghost predicate ComesFrom(s: State, c: Cycle, earliest: int, job: Job, p: Place)
    requires c.Valid()
  {
    && p.company < |c.universe| && c.answers[p.company].Listed?
    && p.filing < |c.answers[p.company].filings|
    && job == Job(c.universe[p.company], c.answers[p.company].filings[p.filing])
    && job.filing.day >= earliest && job.filing.accession !in s.ledger && !IsQuarantined(s, job.cik)
  }

  lemma {:induction false} AnnounceQueues(s: State, cik: Cik, filings: seq<Filing>)
    ensures Perform(s, Announce(cik, filings)).queue
            == s.queue + seq(|filings|, k requires 0 <= k < |filings| => Job(cik, filings[k]))
    decreases |filings|
  {
    if filings != [] {
      var es := Announce(cik, filings);
      var t := Apply(Apply(s, es[0]), es[1]);
      assert es[2..] == Announce(cik, filings[1..]) && es[1..][1..] == es[2..];
      AnnounceQueues(t, cik, filings[1..]);
      assert t.queue == s.queue + [Job(cik, filings[0])];
    }
  }

  /** Document order is kept, and exactly the filings in the window that are not in the ledger are selected. */
  lemma {:induction false} NewFilingsInOrder(filings: seq<Filing>, earliest: int, ledger: set<Accession>)
    returns (at: seq<nat>)
    ensures Picks(filings, at, NewFilings(filings, earliest, ledger))
    ensures forall n: nat :: n < |filings| ==>
              (n in at <==> filings[n].day >= earliest && filings[n].accession !in ledger)
    decreases |filings|
  {
    if filings == [] {
      at := [];
    } else {
      var rest := NewFilingsInOrder(filings[1..], earliest, ledger);
      SplitFirst(filings);
      var unseen := NewFilings(filings[1..], earliest, ledger);
      if filings[0].day >= earliest && filings[0].accession !in ledger {
        at := PicksWithFirst(filings[0], filings[1..], rest, unseen);
      } else {
        at := PicksBehind(filings[0], filings[1..], rest, unseen);
        assert [] + unseen == unseen;
      }
      forall n: nat | n < |filings|
        ensures n in at <==> filings[n].day >= earliest && filings[n].accession !in ledger
      {
        assert n > 0 ==> filings[1..][n - 1] == filings[n];
      }
    }
  }

  /** One company's jobs. */
  lemma JobsOfCompany(s: State, c: Cycle, earliest: int, i: nat) returns (places: seq<Place>)
    requires c.Valid() && i < |c.universe|
    ensures var jobs := Perform(s, CompanyEffects(s, c.universe[i], c.answers[i], earliest)).queue;
            && |jobs| == |s.queue| + |places| && jobs[..|s.queue|] == s.queue
            && InOrder(places)
            && forall k :: 0 <= k < |places| ==>
                 places[k].company == i && ComesFrom(s, c, earliest, jobs[|s.queue| + k], places[k])
  {
    places := [];
    if !IsQuarantined(s, c.universe[i]) && c.answers[i].FetchFailed? {
      FailureWrites(s, c.universe[i]);
    } else if !IsQuarantined(s, c.universe[i]) {
      var filings, industry := c.answers[i].filings, c.answers[i].industry;
      var unseen := NewFilings(filings, earliest, s.ledger);
      IndustryOnly(s, c.universe[i], industry);
      PerformConcat(s, IndustryEffects(c.universe[i], industry), Announce(c.universe[i], unseen));
      AnnounceQueues(Perform(s, IndustryEffects(c.universe[i], industry)), c.universe[i], unseen);
      var at := NewFilingsInOrder(filings, earliest, s.ledger);
      places := seq(|at|, k requires 0 <= k < |at| => Place(i, at[k]));
      forall k | 0 <= k < |at|
        ensures filings[at[k]].day >= earliest && filings[at[k]].accession !in s.ledger
      {
        assert at[k] in at;
      }
    }
  }

  lemma {:induction false} QuarantineStays(s: State, effects: seq<Effect>, cik: Cik)
    requires IsQuarantined(s, cik)
    ensures IsQuarantined(Perform(s, effects), cik)
    decreases |effects|
  {
    if effects != [] {
      QuarantineStays(Apply(s, effects[0]), effects[1..], cik);
    }
  }

  /** What came from a place after some of the cycle's writes came from it before them. */
  lemma CameFrom(s: State, effects: seq<Effect>, c: Cycle, earliest: int, job: Job, p: Place)
    requires c.Valid() && ComesFrom(Perform(s, effects), c, earliest, job, p)
    ensures ComesFrom(s, c, earliest, job, p)
  {
    LedgerGrows(s, effects);
    if IsQuarantined(s, job.cik) {
      QuarantineStays(s, effects, job.cik);
    }
  }

  /**
   * A cycle queues company after company and in document order, only filings in the window that were not recorded
   * when it started, each with the company whose document lists it.
   */
  lemma {:induction false} JobsAreInOrder(s: State, c: Cycle, earliest: int, i: nat) returns (places: seq<Place>)
    requires c.Valid() && i <= |c.universe|
    ensures var jobs := Perform(s, EffectsFrom(s, c, earliest, i)).queue;
            && |jobs| == |s.queue| + |places| && jobs[..|s.queue|] == s.queue
            && InOrder(places)
            && forall k :: 0 <= k < |places| ==>
                 places[k].company >= i && ComesFrom(s, c, earliest, jobs[|s.queue| + k], places[k])
    decreases |c.universe| - i
  {
    if i == |c.universe| {
      places := [];
    } else {
      var mine := CompanyEffects(s, c.universe[i], c.answers[i], earliest);
      var t := Perform(s, mine);
      var later := EffectsNext(s, c, earliest, i);
      PerformConcat(s, mine, later);
      var first := JobsOfCompany(s, c, earliest, i);
      var rest := JobsAreInOrder(t, c, earliest, i + 1);
      places := first + rest;
      JoinJobs(s, mine, c, earliest, i, first, rest, Perform(t, later).queue);
    }
  }

  lemma JoinJobs(s: State, mine: seq<Effect>, c: Cycle, earliest: int, i: nat, first: seq<Place>, rest: seq<Place>,
                 jobs: seq<Job>)
    requires c.Valid() && InOrder(first) && InOrder(rest)
    requires var mid := Perform(s, mine).queue;
             && |mid| == |s.queue| + |first| && mid[..|s.queue|] == s.queue
             && |jobs| == |mid| + |rest| && jobs[..|mid|] == mid
             && (forall k :: 0 <= k < |first| ==>
                   first[k].company == i && ComesFrom(s, c, earliest, mid[|s.queue| + k], first[k]))
             && (forall k :: 0 <= k < |rest| ==>
                   rest[k].company >= i + 1 && ComesFrom(Perform(s, mine), c, earliest, jobs[|mid| + k], rest[k]))
    ensures |jobs| == |s.queue| + |first + rest| && jobs[..|s.queue|] == s.queue && InOrder(first + rest)
    ensures forall k :: 0 <= k < |first + rest| ==>
              (first + rest)[k].company >= i && ComesFrom(s, c, earliest, jobs[|s.queue| + k], (first + rest)[k])
  {
    var mid := Perform(s, mine).queue;
    assert jobs[..|s.queue|] == mid[..|s.queue|];
    forall k | 0 <= k < |first + rest|
      ensures (first + rest)[k].company >= i && ComesFrom(s, c, earliest, jobs[|s.queue| + k], (first + rest)[k])
    {
      if k < |first| {
        assert jobs[|s.queue| + k] == mid[|s.queue| + k];
      } else {
        CameFrom(s, mine, c, earliest, jobs[|mid| + (k - |first|)], rest[k - |first|]);
      }
    }
  }

  lemma QueueAfterCycle(s: State, c: Cycle) returns (places: seq<Place>)
    requires c.Valid() && Completes(s, c)
    ensures var jobs := AfterCycle(s, c).queue;
            && |jobs| == |s.queue| + |places| && jobs[..|s.queue|] == s.queue
            && InOrder(places)
            && forall k :: 0 <= k < |places| ==>
                 ComesFrom(s, c, EarliestDay(s, c.readAt), jobs[|s.queue| + k], places[k])
  {
    places := JobsAreInOrder(s, c, EarliestDay(s, c.readAt), 0);
    CursorOnlyCursor(s, c);
  }

  lemma CycleKeepsTrack(s: State, c: Cycle, cik: Cik, f: Filing, appeared: int)
    requires Watches(s, c, cik, f, appeared) && Tracked(s, f, appeared)
    requires f.day >= appeared / 86_400_000 - 2
    ensures Tracked(AfterCycle(s, c), f, appeared)
    ensures Checks(s, c, cik, appeared) ==> f.accession in AfterCycle(s, c).ledger
  {
    var earliest := EarliestDay(s, c.readAt);
    var j := IndexOf(c.universe, cik);
    assert c.universe[0..j] == c.universe[..j];
    LedgerGrows(s, Written(s, c));
    CursorAfterCycle(s, c);
    if f.accession !in s.ledger && Completes(s, c) {
      if Clean(s, c) {
        CleanMeansFetched(s, c, earliest, 0, cik, j);
      }
      if c.answers[j].Listed? && appeared <= c.fetchedAt[j] {
        FullCycleFinds(s, c, earliest, 0, cik, j, f);
        CursorOnlyCursor(s, c);
      }
    }
  }

  ghost predicate WatchedThroughout(s: State, turns: seq<Turn>, cik: Cik, f: Filing, appeared: int)
    requires ValidTurns(turns)
    decreases |turns|
  {
    turns == []
    || ((turns[0].PollCycle? ==> Watches(s, turns[0].cycle, cik, f, appeared))
        && WatchedThroughout(AfterTurn(s, turns[0]), turns[1..], cik, f, appeared))
  }

  ghost predicate CheckedInTime(s: State, turns: seq<Turn>, cik: Cik, f: Filing, appeared: int)
    requires ValidTurns(turns) && WatchedThroughout(s, turns, cik, f, appeared)
    decreases |turns|
  {
    && turns != []
    && ((turns[0].PollCycle? && Checks(s, turns[0].cycle, cik, appeared))
        || CheckedInTime(AfterTurn(s, turns[0]), turns[1..], cik, f, appeared))
  }

  /**
   * A filing that appears after the stored cursor, dated at most two days earlier, of a company that is
   * never quarantined: no sequence of failed fetches, failed enqueues and stops lets the cursor skip it,
   * and it is in the ledger once one cycle has completed that got the company's document since.
   */
  lemma {:induction false} NeverSkipped(s: State, turns: seq<Turn>, cik: Cik, f: Filing, appeared: int)
    requires ValidTurns(turns) && WatchedThroughout(s, turns, cik, f, appeared)
    requires Tracked(s, f, appeared) && f.day >= appeared / 86_400_000 - 2
    ensures Tracked(After(s, turns), f, appeared)
    ensures CheckedInTime(s, turns, cik, f, appeared) ==> f.accession in After(s, turns).ledger
    decreases |turns|
  {
    if turns != [] {
      var s1 := AfterTurn(s, turns[0]);
      if turns[0].PollCycle? {
        CycleKeepsTrack(s, turns[0].cycle, cik, f, appeared);
      }
      NeverSkipped(s1, turns[1..], cik, f, appeared);
      TurnsKeepLedger(s1, turns[1..]);
    }
  }

  lemma {:induction false} TurnsKeepLedger(s: State, turns: seq<Turn>)
    requires ValidTurns(turns)
    ensures s.ledger <= After(s, turns).ledger
    decreases |turns|
  {
    if turns != [] {
      if turns[0].PollCycle? {
        LedgerGrows(s, Written(s, turns[0].cycle));
      }
      TurnsKeepLedger(AfterTurn(s, turns[0]), turns[1..]);
    }
  }

  // What lies outside that guarantee is lost for good.

  /** Not recorded, and dated before the window of the stored cursor. */
  ghost predicate Behind(s: State, f: Filing) {
    f.accession !in s.ledger && s.cursor.Some? && f.day < s.cursor.value / 86_400_000 - 2
  }

  /** Wherever the accession is listed, it is listed with the filing's own date. */
  ghost predicate SameDate(c: Cycle, f: Filing) {
    forall i, g :: 0 <= i < |c.answers| && c.answers[i].Listed? && g in c.answers[i].filings
                   && g.accession == f.accession
                   ==> g.day == f.day
  }

  lemma {:induction false} OldFilingIsIgnored(s: State, c: Cycle, earliest: int, i: nat, f: Filing)
    requires c.Valid() && i <= |c.universe| && SameDate(c, f) && f.day < earliest
    ensures Record(f.accession) !in EffectsFrom(s, c, earliest, i)
    decreases |c.universe| - i
  {
    if i < |c.universe| {
      var mine := CompanyEffects(s, c.universe[i], c.answers[i], earliest);
      OldFilingIsIgnored(Perform(s, mine), c, earliest, i + 1, f);
      if c.answers[i].Listed? {
        NewFilingsAre(c.answers[i].filings, earliest, s.ledger);
        AnnounceMentions(c.universe[i], NewFilings(c.answers[i].filings, earliest, s.ledger), f.accession);
      }
    }
  }

  lemma {:induction false} AnnounceMentions(cik: Cik, filings: seq<Filing>, a: Accession)
    ensures Record(a) in Announce(cik, filings) ==> exists g :: g in filings && g.accession == a
    decreases |filings|
  {
    if filings != [] {
      AnnounceMentions(cik, filings[1..], a);
      assert Announce(cik, filings)[2..] == Announce(cik, filings[1..]);
    }
  }

  lemma {:induction false} UnrecordedStays(s: State, effects: seq<Effect>, a: Accession)
    requires a !in s.ledger && Record(a) !in effects
    ensures a !in Perform(s, effects).ledger
    decreases |effects|
  {
    if effects != [] {
      UnrecordedStays(Apply(s, effects[0]), effects[1..], a);
    }
  }

  lemma OldFilingStaysOut(s: State, c: Cycle, f: Filing)
    requires c.Valid() && SameDate(c, f)
    requires f.accession !in s.ledger && f.day < EarliestDay(s, c.readAt)
    ensures f.accession !in AfterCycle(s, c).ledger
    ensures AfterCycle(s, c).cursor == s.cursor || AfterCycle(s, c).cursor == Some(c.startedAt)
  {
    var earliest := EarliestDay(s, c.readAt);
    OldFilingIsIgnored(s, c, earliest, 0, f);
    UnrecordedStays(s, Written(s, c), f.accession);
    CursorAfterCycle(s, c);
  }

  /** Cycles start no earlier than the cursor they find. */
  ghost predicate ClockAdvances(s: State, turns: seq<Turn>)
    requires ValidTurns(turns)
    decreases |turns|
  {
    turns == []
    || ((turns[0].PollCycle? && s.cursor.Some? ==> s.cursor.value <= turns[0].cycle.startedAt)
        && ClockAdvances(AfterTurn(s, turns[0]), turns[1..]))
  }

  lemma {:induction false} BehindForever(s: State, turns: seq<Turn>, f: Filing)
    requires ValidTurns(turns) && ClockAdvances(s, turns)
    requires forall i :: 0 <= i < |turns| && turns[i].PollCycle? ==> SameDate(turns[i].cycle, f)
    requires Behind(s, f)
    ensures Behind(After(s, turns), f)
    decreases |turns|
  {
    if turns != [] {
      if turns[0].PollCycle? {
        OldFilingStaysOut(s, turns[0].cycle, f);
      }
      BehindForever(AfterTurn(s, turns[0]), turns[1..], f);
    }
  }

  lemma WindowStarts(s: State, readAt: int)
    ensures EarliestDay(s, readAt)
            == (if s.cursor.Some? then s.cursor.value else readAt - 86_400_000) / 86_400_000 - 2
  {
  }

  /**
   * A cycle that gets through and got the company's document records a listed filing exactly when its date is in
   * the window.
   */
  lemma FoundIffInWindow(s: State, c: Cycle, cik: Cik, f: Filing)
    requires c.Valid() && cik in c.universe && !IsQuarantined(s, cik) && SameDate(c, f)
    requires var j := IndexOf(c.universe, cik); c.answers[j].Listed? && f in c.answers[j].filings
    requires Completes(s, c) && f.accession !in s.ledger
    ensures f.accession in AfterCycle(s, c).ledger
      <==> f.day >= (if s.cursor.Some? then s.cursor.value else c.readAt - 86_400_000) / 86_400_000 - 2
  {
    WindowStarts(s, c.readAt);
    var j := IndexOf(c.universe, cik);
    if f.day >= EarliestDay(s, c.readAt) {
      assert c.universe[0..j] == c.universe[..j];
      FullCycleFinds(s, c, EarliestDay(s, c.readAt), 0, cik, j, f);
      CursorOnlyCursor(s, c);
    } else {
      OldFilingStaysOut(s, c, f);
    }
  }

  /**
   * With no cursor stored the default start slides with the clock: a filing more than three days old by
   * the time the first clean cycle runs is behind from then on, however often it was listed before.
   */
  lemma SlidingDefaultLoses(s: State, c: Cycle, f: Filing)
    requires c.Valid() && SameDate(c, f) && s.cursor.None? && f.accession !in s.ledger
    requires c.readAt <= c.startedAt && f.day < c.readAt / 86_400_000 - 3
    ensures AfterCycle(s, c).cursor.Some? ==> Behind(AfterCycle(s, c), f)
    ensures f.accession !in AfterCycle(s, c).ledger
  {
    OldFilingStaysOut(s, c, f);
  }

  /** No other company's document lists the accession. */
  ghost predicate OnlyListedBy(c: Cycle, cik: Cik, a: Accession)
    requires c.Valid()
  {
    forall i, g :: 0 <= i < |c.answers| && c.universe[i] != cik && c.answers[i].Listed? && g in c.answers[i].filings
                   ==> g.accession != a
  }

  lemma {:induction false} QuarantinedIsSilent(s: State, c: Cycle, earliest: int, i: nat, cik: Cik, a: Accession)
    requires c.Valid() && i <= |c.universe| && IsQuarantined(s, cik) && OnlyListedBy(c, cik, a)
    ensures Record(a) !in EffectsFrom(s, c, earliest, i)
    decreases |c.universe| - i
  {
    if i < |c.universe| {
      var mine := CompanyEffects(s, c.universe[i], c.answers[i], earliest);
      if c.universe[i] != cik {
        OthersStay(s, c.universe[i], c.answers[i], earliest, cik);
        if c.answers[i].Listed? {
          NewFilingsAre(c.answers[i].filings, earliest, s.ledger);
          AnnounceMentions(c.universe[i], NewFilings(c.answers[i].filings, earliest, s.ledger), a);
        }
      }
      QuarantinedIsSilent(Perform(s, mine), c, earliest, i + 1, cik, a);
    }
  }

  /**
   * A quarantined company does not hold the cursor back, whatever its own fetch would give: if every other company
   * that is not quarantined was fetched, a completed cycle moves the cursor to its start and leaves the company's
   * filings behind exactly if they are dated before the new window.
   */
  lemma QuarantineIsPassedOver(s: State, c: Cycle, cik: Cik, f: Filing)
    requires c.Valid() && IsQuarantined(s, cik) && Completes(s, c)
    requires forall j :: 0 <= j < |c.universe| && c.universe[j] != cik && !IsQuarantined(s, c.universe[j])
                         ==> c.answers[j].Listed?
    requires f.accession !in s.ledger && OnlyListedBy(c, cik, f.accession)
    ensures AfterCycle(s, c).cursor == Some(c.startedAt)
    ensures Behind(AfterCycle(s, c), f) <==> f.day < c.startedAt / 86_400_000 - 2
  {
    QuarantinedIsSilent(s, c, EarliestDay(s, c.readAt), 0, cik, f.accession);
    UnrecordedStays(s, Written(s, c), f.accession);
    CursorAfterCycle(s, c);
  }
}
