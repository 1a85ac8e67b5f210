/**
 * The dashboard session owned by the top-level component: both stores,
 * the visible layers, the density slider, the report text and the report
 * window flags, plus the debounce timer that requests a report once the
 * stores have been quiet for 1500 ms. Time is a virtual clock in
 * milliseconds; every transition is a pure function of the session.
 */
module App {
  import opened Wrappers
  import opened Types
  import opened GeminiService

  /** Quiet period before a report is requested. */
  const DebounceMs: nat := 1500

  /** Report text stored when the report request fails. */
  const InsightsFallback: string := "AI 空間平衡分析暫時無法載入。"

  datatype Session = Session(
    resources: seq<ResourceItem>,
    demands: seq<DemandItem>,
    activeLayers: set<LayerType>,
    densityScale: real,
    insights: string,
    loading: bool,
    isModalOpen: bool,
    isMinimized: bool,
    now: nat,                  // virtual clock, in milliseconds
    deadline: Option<nat>)     // when the armed debounce timer fires, if one is armed
  {
    /** A pending timer always lies in the next quiet period. */
    predicate Valid() {
      deadline.Some? ==> now < deadline.value <= now + DebounceMs
    }

    /** `hasInsights`: the sidebar offers to reopen the report. */
    predicate HasInsights() {
      insights != ""
    }

    /** Cancel the pending timer and arm a new one a quiet period from now. */
    function Rearm(): (r: Session)
      ensures r.Valid()
      ensures r.deadline == Some(now + DebounceMs)
      ensures r == this.(deadline := r.deadline)
    {
      this.(deadline := Some(now + DebounceMs))
    }
  }

  /** A transition's new session, and the report request it issues, if any. */
  datatype Step = Step(session: Session, request: Option<Payload>)

  /** How a report request completed: with possibly absent text, or with an error. */
  datatype InsightReply = Answered(text: Option<string>) | Errored

  /** The session on mount at clock `0`; the mount also arms the first timer. */
  function Initial(): (s: Session)
    ensures s.Valid()
    ensures s.activeLayers == {RESOURCE, DEMAND}
    ensures s.resources == [] && s.demands == []
    ensures !s.HasInsights() && !s.loading && !s.isModalOpen && !s.isMinimized
    ensures s.now == 0 && s.deadline == Some(DebounceMs) && s.densityScale == 1.0
  {
    Session([], [], {RESOURCE, DEMAND}, 1.0, "", false, false, false, 0, Some(DebounceMs))
  }

  /** `toggleLayer`: flip whether `t` is shown. */
  function ToggleLayer(s: Session, t: LayerType): (r: Session)
    ensures t in r.activeLayers <==> t !in s.activeLayers
    ensures forall u :: u != t ==> (u in r.activeLayers <==> u in s.activeLayers)
    ensures r == s.(activeLayers := r.activeLayers)
  {
    if t in s.activeLayers then s.(activeLayers := s.activeLayers - {t})
    else s.(activeLayers := s.activeLayers + {t})
  }

  lemma ToggleTwiceRestores(s: Session, t: LayerType)
    ensures ToggleLayer(ToggleLayer(s, t), t) == s
  {
  }

  /**
   * `handleReset`: empty one store, clear the report and close its window,
   * whichever layer was reset. The store's new array re-arms the timer.
   */
  function HandleReset(s: Session, t: LayerType): (r: Session)
    ensures t == RESOURCE ==> r.resources == [] && r.demands == s.demands
    ensures t == DEMAND ==> r.demands == [] && r.resources == s.resources
    ensures r.insights == "" && !r.isModalOpen
    ensures r.deadline == Some(s.now + DebounceMs)
    ensures r.activeLayers == s.activeLayers && r.densityScale == s.densityScale
    ensures r.loading == s.loading && r.isMinimized == s.isMinimized && r.now == s.now
  {
    var s1 := if t == RESOURCE then s.(resources := []) else s.(demands := []);
    s1.(insights := "", isModalOpen := false).Rearm()
  }

  lemma ResetIdempotent(s: Session, t: LayerType)
    ensures HandleReset(HandleReset(s, t), t) == HandleReset(s, t)
  {
  }

  /**
   * `handleDataLoaded`: append a batch to its layer's store, in order.
   * The store's new array re-arms the timer even for an empty batch.
   */
  function HandleDataLoaded(s: Session, batch: Batch): (r: Session)
    ensures batch.ResourceBatch? ==> r.resources == s.resources + batch.resourceItems && r.demands == s.demands
    ensures batch.DemandBatch? ==> r.demands == s.demands + batch.demandItems && r.resources == s.resources
    ensures r.deadline == Some(s.now + DebounceMs)
    ensures r == s.(resources := r.resources, demands := r.demands, deadline := r.deadline)
  {
    match batch
    case ResourceBatch(items) => s.(resources := s.resources + items).Rearm()
    case DemandBatch(items) => s.(demands := s.demands + items).Rearm()
  }

  /** Appending an empty batch leaves both stores as they were. */
  lemma EmptyBatchKeepsStores(s: Session, batch: Batch)
    requires batch.ResourceBatch? ==> batch.resourceItems == []
    requires batch.DemandBatch? ==> batch.demandItems == []
    ensures HandleDataLoaded(s, batch).resources == s.resources
    ensures HandleDataLoaded(s, batch).demands == s.demands
  {
  }

  /** `xs.reduce((acc, x) => acc + f(x), 0)`, folding from the left. */
  function Sum<T>(xs: seq<T>, f: T -> int): (r: int)
    ensures xs == [] ==> r == 0
    ensures (forall i :: 0 <= i < |xs| ==> f(xs[i]) >= 0) ==> r >= 0
  {
    if |xs| == 0 then 0 else Sum(xs[..|xs| - 1], f) + f(xs[|xs| - 1])
  }

  lemma {:induction false} SumAppend<T>(a: seq<T>, b: seq<T>, f: T -> int)
    ensures Sum(a + b, f) == Sum(a, f) + Sum(b, f)
    decreases |b|
  {
    if |b| > 0 {
      assert (a + b)[..|a + b| - 1] == a + b[..|b| - 1];
      SumAppend(a, b[..|b| - 1], f);
    } else {
      assert a + b == a;
    }
  }

  function Capacity(r: ResourceItem): int {
    r.capacity
  }

  function Count(d: DemandItem): int {
    d.count
  }

  /** The resource total shown in the header: 0 for no sites, never negative for non-negative capacities. */
  function TotalCapacity(rs: seq<ResourceItem>): (t: int)
    ensures rs == [] ==> t == 0
    ensures (forall i :: 0 <= i < |rs| ==> rs[i].capacity >= 0) ==> t >= 0
  {
    Sum(rs, Capacity)
  }

  /** The total demand count: 0 for no records, never negative for non-negative counts. */
  function TotalCount(ds: seq<DemandItem>): (t: int)
    ensures ds == [] ==> t == 0
    ensures (forall i :: 0 <= i < |ds| ==> ds[i].count >= 0) ==> t >= 0
  {
    Sum(ds, Count)
  }

  /** Loading a batch adds its records to the count and its capacity to the total. */
  lemma DataLoadedAggregates(s: Session, batch: Batch)
    ensures batch.ResourceBatch? ==>
      |HandleDataLoaded(s, batch).resources| == |s.resources| + |batch.resourceItems| &&
      TotalCapacity(HandleDataLoaded(s, batch).resources) == TotalCapacity(s.resources) + TotalCapacity(batch.resourceItems)
    ensures batch.DemandBatch? ==>
      |HandleDataLoaded(s, batch).demands| == |s.demands| + |batch.demandItems| &&
      TotalCount(HandleDataLoaded(s, batch).demands) == TotalCount(s.demands) + TotalCount(batch.demandItems)
  {
    match batch
    case ResourceBatch(items) => SumAppend(s.resources, items, Capacity);
    case DemandBatch(items) => SumAppend(s.demands, items, Count);
  }

  /** `averageDemandPerHundred` before formatting: 0 for no records, else the mean count. */
  function AverageDemand(ds: seq<DemandItem>): (r: real)
    ensures |ds| == 0 ==> r == 0.0
    ensures |ds| > 0 ==> r * |ds| as real == TotalCount(ds) as real
  {
    if |ds| > 0 then TotalCount(ds) as real / |ds| as real else 0.0
  }

  lemma AverageDemandExample(a: DemandItem, b: DemandItem)
    requires a.count == 100 && b.count == 300
    ensures AverageDemand([a, b]) == 200.0
  {
    assert [a, b][..1] == [a];
    assert [a][..0] == [];
    assert Sum([a], Count) == Sum([], Count) + a.count;
    assert Sum([a, b], Count) == Sum([a], Count) + b.count;
  }

  /**
   * `generateInsights`, up to its await: nothing unless both stores hold
   * records; otherwise mark loading, show the window un-minimised, and
   * send at most 15 records of each kind.
   */
  function GenerateInsights(s: Session): (r: Step)
    ensures (|s.resources| == 0 || |s.demands| == 0) ==> r == Step(s, None)
    ensures |s.resources| > 0 && |s.demands| > 0 ==>
      r.session == s.(loading := true, isModalOpen := true, isMinimized := false) &&
      r.request == Some(InsightPayload(s.resources, s.demands))
  {
    if |s.resources| == 0 || |s.demands| == 0 then Step(s, None)
    else Step(s.(loading := true, isModalOpen := true, isMinimized := false),
              Some(InsightPayload(s.resources, s.demands)))
  }

  /** The rest of `generateInsights`: store the text, or the fallback message, and stop loading. */
  function CompleteInsights(s: Session, reply: InsightReply): (r: Session)
    ensures !r.loading
    ensures reply.Answered? ==> r.insights == reply.text.GetOr("")
    ensures reply.Errored? ==> r.insights == InsightsFallback && r.HasInsights()
    ensures r == s.(insights := r.insights, loading := false)
  {
    match reply
    case Answered(text) => s.(insights := text.GetOr(""), loading := false)
    case Errored => s.(insights := InsightsFallback, loading := false)
  }

  /**
   * Let `dt` milliseconds pass. If the armed timer's deadline passes, it
   * fires: the timer is spent, and when both stores hold records the
   * report is requested.
   */
  function Tick(s: Session, dt: nat): (r: Step)
    ensures r.session.now == s.now + dt
    ensures !(s.deadline.Some? && s.deadline.value <= s.now + dt) ==> r == Step(s.(now := s.now + dt), None)
    ensures s.deadline.Some? && s.deadline.value <= s.now + dt && |s.resources| > 0 && |s.demands| > 0 ==>
      r.session == s.(now := s.now + dt, deadline := None, loading := true, isModalOpen := true, isMinimized := false)
    ensures s.deadline.Some? && s.deadline.value <= s.now + dt && (|s.resources| == 0 || |s.demands| == 0) ==>
      r == Step(s.(now := s.now + dt, deadline := None), None)
    ensures r.request.Some? <==>
      (s.deadline.Some? && s.deadline.value <= s.now + dt && |s.resources| > 0 && |s.demands| > 0)
    ensures r.request.Some? ==> r.request == Some(InsightPayload(s.resources, s.demands))
    ensures r.session.resources == s.resources && r.session.demands == s.demands
    ensures r.session.insights == s.insights && r.session.activeLayers == s.activeLayers
    ensures s.Valid() ==> r.session.Valid()
  {
    var t := s.now + dt;
    if s.deadline.Some? && s.deadline.value <= t then
      var spent := s.(now := t, deadline := None);
      if |s.resources| > 0 && |s.demands| > 0 then GenerateInsights(spent)
      else Step(spent, None)
    else Step(s.(now := t), None)
  }

  /** Before the quiet period ends nothing fires, whatever was armed before the mutation. */
  lemma NoFireWithinQuietPeriod(s: Session, batch: Batch, t: LayerType, dt: nat)
    requires dt < DebounceMs
    ensures Tick(HandleDataLoaded(s, batch), dt).request == None
    ensures Tick(HandleDataLoaded(s, batch), dt).session.deadline == Some(s.now + DebounceMs)
    ensures Tick(HandleReset(s, t), dt).request == None
    ensures Tick(HandleReset(s, t), dt).session.deadline == Some(s.now + DebounceMs)
  {
  }

  /** A quiet period with both stores non-empty always ends in a request. */
  lemma QuietPeriodFires(s: Session)
    requires s.Valid() && s.deadline.Some?
    requires |s.resources| > 0 && |s.demands| > 0
    ensures Tick(s, DebounceMs).request == Some(InsightPayload(s.resources, s.demands))
    ensures Tick(s, DebounceMs).session.loading && Tick(s, DebounceMs).session.isModalOpen
  {
  }

  /** A fired timer is spent: waiting longer never requests a second report. */
  lemma FiresAtMostOnce(s: Session, dt: nat, dt': nat)
    ensures Tick(s, dt).request.Some? ==> Tick(Tick(s, dt).session, dt').request == None
  {
  }

  /**
   * Resources loaded at 0 ms and demand at 1000 ms: nothing at 1500 ms,
   * because the second load restarted the timer; the request goes out at 2500 ms.
   */
  lemma DebounceScenario(rs: seq<ResourceItem>, ds: seq<DemandItem>)
    requires |rs| > 0 && |ds| > 0
    ensures var s0 := HandleDataLoaded(Initial(), ResourceBatch(rs));
            var s1 := HandleDataLoaded(Tick(s0, 1000).session, DemandBatch(ds));
            var at1500 := Tick(s1, 500);
            var at2500 := Tick(at1500.session, 1000);
            Tick(s0, 1000).request == None &&
            at1500.request == None &&
            at2500.session.now == 2500 &&
            at2500.request == Some(InsightPayload(rs, ds))
  {
    var s0 := HandleDataLoaded(Initial(), ResourceBatch(rs));
    assert s0.resources == rs && s0.demands == [] && s0.deadline == Some(1500);
    var a := Tick(s0, 1000).session;
    assert a.now == 1000 && a.resources == rs && a.demands == [];
    var s1 := HandleDataLoaded(a, DemandBatch(ds));
    assert s1.deadline == Some(2500) && s1.demands == ds && s1.resources == rs;
    var at1500 := Tick(s1, 500);
    assert at1500.session.deadline == Some(2500) && at1500.session.now == 1500;
  }

  /** The sidebar's reopen button: show the stored report, un-minimised. */
  function OpenInsights(s: Session): (r: Session)
    ensures r.isModalOpen && !r.isMinimized
    ensures r == s.(isModalOpen := true, isMinimized := false)
  {
    s.(isModalOpen := true, isMinimized := false)
  }

  /** The report window's close button. */
  function CloseInsights(s: Session): (r: Session)
    ensures !r.isModalOpen
    ensures r == s.(isModalOpen := false)
  {
    s.(isModalOpen := false)
  }

  /** The report window's minimise button. */
  function ToggleMinimize(s: Session): (r: Session)
    ensures r.isMinimized != s.isMinimized
    ensures r == s.(isMinimized := r.isMinimized)
  {
    s.(isMinimized := !s.isMinimized)
  }

  /** The density slider. */
  function SetDensityScale(s: Session, value: real): (r: Session)
    ensures r.densityScale == value
    ensures r == s.(densityScale := value)
  {
    s.(densityScale := value)
  }

  /** Reopening keeps the stores, the report and the timer as they were. */
  lemma ReopenKeepsData(s: Session)
    ensures OpenInsights(s).resources == s.resources && OpenInsights(s).demands == s.demands
    ensures OpenInsights(s).insights == s.insights && OpenInsights(s).deadline == s.deadline
    ensures OpenInsights(s).HasInsights() == s.HasInsights()
  {
  }

  /**
   * When the sidebar offers to reopen the report: not on mount, not after
   * a reset, always after a failed request, and after an answer exactly
   * when the answer has text.
   */
  lemma ReportButtonShown(s: Session, t: LayerType, text: Option<string>)
    ensures !Initial().HasInsights()
    ensures !HandleReset(s, t).HasInsights()
    ensures CompleteInsights(s, Errored).HasInsights()
    ensures CompleteInsights(s, Answered(text)).HasInsights() <==> text.Some? && text.value != ""
  {
  }

  /** Everything that can happen to a session. */
  datatype Event =
    | Toggle(layer: LayerType)
    | Reset(layer: LayerType)
    | DataLoaded(batch: Batch)
    | InsightsDone(reply: InsightReply)
    | Reopen
    | Close
    | Minimize
    | Density(value: real)
    | Wait(dt: nat)

  /** One event: only waiting moves the clock, and only waiting can request a report. */
  function Apply(s: Session, e: Event): (r: Step)
    ensures e.Wait? ==> r.session.now == s.now + e.dt
    ensures !e.Wait? ==> r.request == None && r.session.now == s.now
  {
    match e
    case Toggle(t) => Step(ToggleLayer(s, t), None)
    case Reset(t) => Step(HandleReset(s, t), None)
    case DataLoaded(b) => Step(HandleDataLoaded(s, b), None)
    case InsightsDone(reply) => Step(CompleteInsights(s, reply), None)
    case Reopen => Step(OpenInsights(s), None)
    case Close => Step(CloseInsights(s), None)
    case Minimize => Step(ToggleMinimize(s), None)
    case Density(v) => Step(SetDensityScale(s, v), None)
    case Wait(dt) => Tick(s, dt)
  }

  /** Every event keeps the timer invariant. */
  lemma ApplyPreservesValid(s: Session, e: Event)
    requires s.Valid()
    ensures Apply(s, e).session.Valid()
  {
  }

  /**
   * Only the timer requests a report, only once its deadline has passed,
   * and only with both stores non-empty.
   */
  lemma RequestsOnlyFromTimer(s: Session, e: Event)
    ensures Apply(s, e).request.Some? ==>
      e.Wait? && s.deadline.Some? && s.deadline.value <= s.now + e.dt &&
      |s.resources| > 0 && |s.demands| > 0
  {
  }

  /** The stores change only by loading and resetting; the report only by completion and reset. */
  lemma StoresAndReportOwnership(s: Session, e: Event)
    ensures !(e.DataLoaded? || e.Reset?) ==>
      Apply(s, e).session.resources == s.resources && Apply(s, e).session.demands == s.demands
    ensures !(e.InsightsDone? || e.Reset?) ==> Apply(s, e).session.insights == s.insights
  {
  }
}
