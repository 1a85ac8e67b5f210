/**
 * The upload path of the sidebar: each record the extraction service
 * returns is copied and given an identity `prefix + index + "-" + time`,
 * the tagged batch goes to the session's store, and the panel's busy
 * flag and file input are reset whatever the outcome. The wall clock is
 * a parameter: `clock(i)` is the millisecond reading taken for record `i`.
 */
module Sidebar {
  import opened Wrappers
  import opened Types
  import opened Decimal
  import opened GeminiService
  import opened App

  const ResourcePrefix: string := "res-"
  const DemandPrefix: string := "dem-"

  /** The identity given to record `idx` of a batch: the prefix, a numeral, `-`, a numeral. */
  function ItemId(prefix: string, idx: nat, stamp: nat): (id: string)
    ensures prefix <= id
    ensures |id| >= |prefix| + 3
    ensures IsDigit(id[|prefix|])
    ensures var n := |prefix| + |NatToString(idx)|;
      n + 1 < |id| && AllDigits(id[|prefix|..n]) && id[n] == '-' && AllDigits(id[n + 1..])
  {
    prefix + NatToString(idx) + "-" + NatToString(stamp)
  }

  /**
   * An identity determines its index and its time stamp: numerals hold
   * no `-`, so the first `-` after the prefix ends the index.
   */
  lemma ItemIdInjective(prefix: string, i: nat, t: nat, i': nat, t': nat)
    requires ItemId(prefix, i, t) == ItemId(prefix, i', t')
    ensures i == i' && t == t'
  {
    var a, a' := NatToString(i), NatToString(i');
    var b, b' := NatToString(t), NatToString(t');
    var x := ItemId(prefix, i, t);
    var p := |prefix|;
    assert x == prefix + a + "-" + b;
    assert x == prefix + a' + "-" + b';
    assert x[p..] == a + "-" + b == a' + "-" + b';
    SplitAtFirstDash(a, b, a', b');
    NatToStringInjective(i, i');
    NatToStringInjective(t, t');
  }

  /** Identities differ as soon as their indices or their readings differ. */
  lemma ItemIdsDiffer(prefix: string, i: nat, t: nat, i': nat, t': nat)
    requires i != i' || t != t'
    ensures ItemId(prefix, i, t) != ItemId(prefix, i', t')
  {
    if ItemId(prefix, i, t) == ItemId(prefix, i', t') {
      ItemIdInjective(prefix, i, t, i', t');
    }
  }

  /** A digit string followed by `-` is recovered from the concatenation. */
  lemma SplitAtFirstDash(a: string, b: string, a': string, b': string)
    requires AllDigits(a) && AllDigits(a')
    requires a + "-" + b == a' + "-" + b'
    ensures a == a' && b == b'
  {
    var y := a + "-" + b;
    assert y[|a|] == '-';
    assert forall k :: 0 <= k < |a'| ==> y[k] == a'[k];
    assert |a| >= |a'|;
    assert y[|a'|] == '-';
    assert forall k :: 0 <= k < |a| ==> y[k] == a[k];
    assert |a'| >= |a|;
    assert a == y[..|a|] == a';
    assert b == y[|a| + 1..] == b';
  }

  /** A resource identity never equals a demand identity. */
  lemma PrefixesSeparateLayers(i: nat, t: nat, i': nat, t': nat)
    ensures ItemId(ResourcePrefix, i, t) != ItemId(DemandPrefix, i', t')
  {
    assert ItemId(ResourcePrefix, i, t)[0] == 'r';
    assert ItemId(DemandPrefix, i', t')[0] == 'd';
  }

  /**
   * The `parsed.map(...)` of a resource upload: same length and order,
   * every field kept, `id` added; the identities are pairwise distinct
   * whatever the clock readings, since the indices are.
   */
  function TagResources(parsed: seq<ParsedResource>, clock: nat -> nat): (r: seq<ResourceItem>)
    ensures |r| == |parsed|
    ensures forall i :: 0 <= i < |r| ==> r[i].Fields() == parsed[i]
    ensures forall i :: 0 <= i < |r| ==> r[i].id == ItemId(ResourcePrefix, i, clock(i))
    ensures forall i, j :: 0 <= i < j < |r| ==> r[i].id != r[j].id
  {
    var r := seq(|parsed|, i requires 0 <= i < |parsed| => parsed[i].WithId(ItemId(ResourcePrefix, i, clock(i))));
    assert forall i :: 0 <= i < |r| ==> r[i] == parsed[i].WithId(ItemId(ResourcePrefix, i, clock(i)));
    assert forall i, j :: 0 <= i < j < |r| ==> r[i].id != r[j].id by {
      forall i, j | 0 <= i < j < |r| ensures r[i].id != r[j].id {
        ItemIdsDiffer(ResourcePrefix, i, clock(i), j, clock(j));
      }
    }
    r
  }

  /** The `parsed.map(...)` of a demand upload, with the same guarantees. */
  function TagDemands(parsed: seq<ParsedDemand>, clock: nat -> nat): (r: seq<DemandItem>)
    ensures |r| == |parsed|
    ensures forall i :: 0 <= i < |r| ==> r[i].Fields() == parsed[i]
    ensures forall i :: 0 <= i < |r| ==> r[i].id == ItemId(DemandPrefix, i, clock(i))
    ensures forall i, j :: 0 <= i < j < |r| ==> r[i].id != r[j].id
  {
    var r := seq(|parsed|, i requires 0 <= i < |parsed| => parsed[i].WithId(ItemId(DemandPrefix, i, clock(i))));
    assert forall i :: 0 <= i < |r| ==> r[i] == parsed[i].WithId(ItemId(DemandPrefix, i, clock(i)));
    assert forall i, j :: 0 <= i < j < |r| ==> r[i].id != r[j].id by {
      forall i, j | 0 <= i < j < |r| ensures r[i].id != r[j].id {
        ItemIdsDiffer(DemandPrefix, i, clock(i), j, clock(j));
      }
    }
    r
  }

  /**
   * Across two resource uploads (indices restart at 0), record `x` of the
   * first and record `y` of the second share an identity exactly when
   * they have the same index and the same clock reading.
   */
  lemma ResourceIdsAcrossBatches(a: seq<ParsedResource>, c1: nat -> nat,
                                 b: seq<ParsedResource>, c2: nat -> nat, x: nat, y: nat)
    requires x < |a| && y < |b|
    ensures TagResources(a, c1)[x].id == TagResources(b, c2)[y].id <==> x == y && c1(x) == c2(y)
  {
    if TagResources(a, c1)[x].id == TagResources(b, c2)[y].id {
      ItemIdInjective(ResourcePrefix, x, c1(x), y, c2(y));
    }
  }

  /**
   * Two resource uploads keep all identities distinct unless a record of
   * the second gets the same index and reading as one of the first; a
   * later second upload is one such case.
   */
  lemma TwoResourceBatchesDistinct(a: seq<ParsedResource>, c1: nat -> nat,
                                   b: seq<ParsedResource>, c2: nat -> nat, i: nat, j: nat)
    requires forall x :: 0 <= x < |a| && x < |b| ==> c1(x) != c2(x)
    requires i < j < |a| + |b|
    ensures var all := TagResources(a, c1) + TagResources(b, c2);
            all[i].id != all[j].id
  {
    JoinedIdsDistinct(TagResources(a, c1), c1, TagResources(b, c2), c2, i, j);
  }

  /** Identities of two joined batches, given only how each batch's identities were formed. */
  lemma JoinedIdsDistinct(ta: seq<ResourceItem>, c1: nat -> nat, tb: seq<ResourceItem>, c2: nat -> nat, i: nat, j: nat)
    requires forall k :: 0 <= k < |ta| ==> ta[k].id == ItemId(ResourcePrefix, k, c1(k))
    requires forall k :: 0 <= k < |tb| ==> tb[k].id == ItemId(ResourcePrefix, k, c2(k))
    requires forall x :: 0 <= x < |ta| && x < |tb| ==> c1(x) != c2(x)
    requires i < j < |ta| + |tb|
    ensures (ta + tb)[i].id != (ta + tb)[j].id
  {
    if j < |ta| {
      ItemIdsDiffer(ResourcePrefix, i, c1(i), j, c1(j));
    } else if |ta| <= i {
      ItemIdsDiffer(ResourcePrefix, i - |ta|, c2(i - |ta|), j - |ta|, c2(j - |ta|));
    } else {
      ItemIdsDiffer(ResourcePrefix, i, c1(i), j - |ta|, c2(j - |ta|));
    }
  }

  /** Two uploads, the second read after the first, give |a| + |b| records with pairwise distinct identities. */
  lemma LaterUploadKeepsIdsDistinct(a: seq<ParsedResource>, c1: nat -> nat,
                                    b: seq<ParsedResource>, c2: nat -> nat)
    requires forall x, y :: 0 <= x < |a| && 0 <= y < |b| ==> c1(x) < c2(y)
    ensures var all := TagResources(a, c1) + TagResources(b, c2);
            |all| == |a| + |b| &&
            forall i, j :: 0 <= i < j < |all| ==> all[i].id != all[j].id
  {
    var all := TagResources(a, c1) + TagResources(b, c2);
    forall i, j | 0 <= i < j < |all| ensures all[i].id != all[j].id {
      TwoResourceBatchesDistinct(a, c1, b, c2, i, j);
    }
  }

  /** Tagged resources and tagged demand never share an identity. */
  lemma LayersNeverShareIds(rs: seq<ParsedResource>, c1: nat -> nat,
                            ds: seq<ParsedDemand>, c2: nat -> nat, i: nat, j: nat)
    requires i < |rs| && j < |ds|
    ensures TagResources(rs, c1)[i].id != TagDemands(ds, c2)[j].id
  {
    PrefixesSeparateLayers(i, c1(i), j, c2(j));
  }

  /** The panel's own state: the busy flag and the file input's selection. */
  datatype UploadPanel = UploadPanel(isProcessing: bool, selectedFile: Option<string>)

  /** What the awaited parse gave, for the layer whose input fired. */
  datatype Upload =
    | ResourceUpload(resourceResult: Settled<JsonValue<ParsedResource>>)
    | DemandUpload(demandResult: Settled<JsonValue<ParsedDemand>>)
  {
    function Layer(): LayerType {
      if ResourceUpload? then RESOURCE else DEMAND
    }
  }

  /** The session and the panel after an upload completes. */
  datatype UploadStep = UploadStep(session: Session, panel: UploadPanel)

  /** Start of `handleFileUpload`: nothing without a file, else mark the panel busy. */
  function BeginUpload(p: UploadPanel): (r: UploadPanel)
    ensures p.selectedFile.None? ==> r == p
    ensures p.selectedFile.Some? ==> r.isProcessing && r.selectedFile == p.selectedFile
  {
    if p.selectedFile.None? then p else p.(isProcessing := true)
  }

  /**
   * The batch handed to `onDataLoaded`, or None when the body throws:
   * the parse promise rejected, or its value is not an array.
   */
  function TaggedBatch(u: Upload, clock: nat -> nat): (r: Option<Batch>)
    ensures r.Some? ==> r.value.Layer() == u.Layer()
    ensures u.ResourceUpload? && u.resourceResult.Resolved? && u.resourceResult.value.JsonArray? ==>
      r == Some(ResourceBatch(TagResources(u.resourceResult.value.items, clock)))
    ensures u.DemandUpload? && u.demandResult.Resolved? && u.demandResult.value.JsonArray? ==>
      r == Some(DemandBatch(TagDemands(u.demandResult.value.items, clock)))
    ensures r.Some? <==>
      ((u.ResourceUpload? && u.resourceResult.Resolved? && u.resourceResult.value.JsonArray?) ||
       (u.DemandUpload? && u.demandResult.Resolved? && u.demandResult.value.JsonArray?))
  {
    match u
    case ResourceUpload(Resolved(JsonArray(items))) => Some(ResourceBatch(TagResources(items, clock)))
    case DemandUpload(Resolved(JsonArray(items))) => Some(DemandBatch(TagDemands(items, clock)))
    case _ => None
  }

  /**
   * The rest of `handleFileUpload`: load the tagged batch, or on a throw
   * leave the session alone; then clear the busy flag and the input.
   */
  function FinishUpload(s: Session, p: UploadPanel, u: Upload, clock: nat -> nat): (r: UploadStep)
    ensures !r.panel.isProcessing && r.panel.selectedFile.None?
    ensures TaggedBatch(u, clock).None? ==> r.session == s
    ensures TaggedBatch(u, clock).Some? ==> r.session == HandleDataLoaded(s, TaggedBatch(u, clock).value)
  {
    var panel := UploadPanel(false, None);
    match TaggedBatch(u, clock)
    case None => UploadStep(s, panel)
    case Some(batch) => UploadStep(HandleDataLoaded(s, batch), panel)
  }

  /** A resource upload appends the parsed records, in order, each with only an id added. */
  lemma ResourceUploadAppends(s: Session, p: UploadPanel, items: seq<ParsedResource>, clock: nat -> nat)
    ensures var r := FinishUpload(s, p, ResourceUpload(Resolved(JsonArray(items))), clock).session;
      |r.resources| == |s.resources| + |items| &&
      r.resources[..|s.resources|] == s.resources &&
      (forall k :: 0 <= k < |items| ==> r.resources[|s.resources| + k].Fields() == items[k]) &&
      r.demands == s.demands
  {
    var r := FinishUpload(s, p, ResourceUpload(Resolved(JsonArray(items))), clock).session;
    assert r.resources == s.resources + TagResources(items, clock);
  }

  /** A demand upload appends the parsed records, in order, each with only an id added. */
  lemma DemandUploadAppends(s: Session, p: UploadPanel, items: seq<ParsedDemand>, clock: nat -> nat)
    ensures var r := FinishUpload(s, p, DemandUpload(Resolved(JsonArray(items))), clock).session;
      |r.demands| == |s.demands| + |items| &&
      r.demands[..|s.demands|] == s.demands &&
      (forall k :: 0 <= k < |items| ==> r.demands[|s.demands| + k].Fields() == items[k]) &&
      r.resources == s.resources
  {
    var r := FinishUpload(s, p, DemandUpload(Resolved(JsonArray(items))), clock).session;
    assert r.demands == s.demands + TagDemands(items, clock);
  }

  /** A failed extraction call leaves both stores, the report and the timer untouched. */
  lemma FailedCallKeepsSession(s: Session, p: UploadPanel, clock: nat -> nat,
                                   parse: string -> Option<JsonValue<ParsedResource>>)
    requires parse("[]") == Some(JsonArray([]))
    ensures FinishUpload(s, p, ResourceUpload(ParseCsvReply(CallFailed, parse)), clock).session == s
  {
  }

  /**
   * An empty or unparsable reply loads an empty batch: the stores keep
   * their contents, though the timer is re-armed.
   */
  lemma EmptyReplyKeepsStores(s: Session, p: UploadPanel, clock: nat -> nat, text: Option<string>,
                              parse: string -> Option<JsonValue<ParsedDemand>>)
    requires parse("[]") == Some(JsonArray([]))
    requires text.None? || text.value == "" || parse(text.value).None?
    ensures var r := FinishUpload(s, p, DemandUpload(ParseCsvReply(Responded(text), parse)), clock).session;
            r.resources == s.resources && r.demands == s.demands &&
            r.deadline == Some(s.now + DebounceMs)
  {
    var settled := ParseCsvReply(Responded(text), parse);
    assert settled == Resolved(JsonArray([]));
    assert TagDemands([], clock) == [];
  }
}
