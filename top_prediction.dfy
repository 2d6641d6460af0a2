/** Selection of the top prediction from the keyed `predictions` object of
    the detection service's reply: the `for…in` scan that keeps the entry
    whose confidence is strictly greater than the running maximum, seeded
    at 0. */
module TopPrediction {
  import opened Options

  /** One key of the `predictions` object, in `for…in` order, with its
      `confidence` field; `None` stands for a missing or non-numeric field,
      for which the `>` comparison is false. */
  datatype Entry = Entry(className: string, confidence: Option<real>)

  /** `predictions[className].confidence > maxConfidence`. */
  predicate Beats(e: Entry, max: real)
  {
    e.confidence.Some? && e.confidence.value > max
  }

  /** The entry's confidence, if any, is at most `m`. */
  predicate AtMost(e: Entry, m: real)
  {
    e.confidence.Some? ==> e.confidence.value <= m
  }

  /** The entry's confidence, if any, is strictly below `m`. */
  predicate Below(e: Entry, m: real)
  {
    e.confidence.Some? ==> e.confidence.value < m
  }

  /** The scan's variables: the index of the current winner (standing for
      `topPredictionClass`, `null` while none) and `maxConfidence`. */
  datatype Scan = Scan(top: Option<nat>, max: real)

  /** The scan's variables after the first `n` entries have been visited. */
  function ScanPrefix(entries: seq<Entry>, n: nat): (st: Scan)
    requires n <= |entries|
    ensures st.top.Some? ==> st.top.value < n
    decreases n
  {
    if n == 0 then Scan(None, 0.0)
    else
      var st := ScanPrefix(entries, n - 1);
      if Beats(entries[n - 1], st.max) then Scan(Some(n - 1), entries[n - 1].confidence.value) else st
  }

  /** Index of the entry the scan selects, if any. */
  function TopIndex(entries: seq<Entry>): (k: Option<nat>)
    ensures k.Some? ==> k.value < |entries|
  {
    ScanPrefix(entries, |entries|).top
  }

  /** `topPredictionClass` after the scan: the selected key, or `None` for `null`. */
  function TopClass(entries: seq<Entry>): Option<string>
  {
    match TopIndex(entries)
    case Some(k) => Some(entries[k].className)
    case None => None
  }

  /** `maxConfidence` after the scan. */
  function TopConfidence(entries: seq<Entry>): real
  {
    ScanPrefix(entries, |entries|).max
  }

  /** No entry has a confidence above the seed 0. */
  ghost predicate NoneScored(entries: seq<Entry>)
  {
    forall j | 0 <= j < |entries| :: !Beats(entries[j], 0.0)
  }

  /** Among the first `n` entries, entry `k` has the positive confidence `m`,
      which no entry exceeds and every earlier entry falls short of. */
  ghost predicate TopWithin(entries: seq<Entry>, n: nat, k: nat, m: real)
    requires n <= |entries|
  {
    && k < n
    && entries[k].confidence == Some(m)
    && m > 0.0
    && (forall j | 0 <= j < n :: AtMost(entries[j], m))
    && (forall j | 0 <= j < k :: Below(entries[j], m))
  }

  /** Reference definition of the selected entry: the first entry carrying
      the greatest confidence, provided that confidence is positive. */
  ghost predicate IsTop(entries: seq<Entry>, k: nat)
  {
    k < |entries| && entries[k].confidence.Some?
    && TopWithin(entries, |entries|, k, entries[k].confidence.value)
  }

  /** What the scan's variables mean after `n` entries. */
  lemma {:induction false} ScanPrefixMeaning(entries: seq<Entry>, n: nat)
    requires n <= |entries|
    ensures ScanPrefix(entries, n).top.None? ==>
      ScanPrefix(entries, n).max == 0.0 && forall j | 0 <= j < n :: !Beats(entries[j], 0.0)
    ensures ScanPrefix(entries, n).top.Some? ==>
      TopWithin(entries, n, ScanPrefix(entries, n).top.value, ScanPrefix(entries, n).max)
    decreases n
  {
    if n > 0 {
      ScanPrefixMeaning(entries, n - 1);
    }
  }

  /** At most one entry is the top one. */
  lemma IsTopUnique(entries: seq<Entry>, k1: nat, k2: nat)
    requires IsTop(entries, k1) && IsTop(entries, k2)
    ensures k1 == k2
  {
  }

  /** The scan selects exactly the reference top entry, and selects nothing
      exactly when no confidence exceeds 0; `maxConfidence` ends as the
      selected entry's confidence. */
  lemma TopIndexIsTop(entries: seq<Entry>)
    ensures TopIndex(entries).None? <==> NoneScored(entries)
    ensures forall k: nat :: TopIndex(entries) == Some(k) <==> IsTop(entries, k)
    ensures TopIndex(entries).Some? ==>
      entries[TopIndex(entries).value].confidence == Some(TopConfidence(entries))
  {
    ScanPrefixMeaning(entries, |entries|);
    match TopIndex(entries)
    case None =>
      forall k: nat | IsTop(entries, k)
        ensures false
      {
        assert Beats(entries[k], 0.0);
      }
    case Some(t) =>
      assert IsTop(entries, t);
      assert Beats(entries[t], 0.0);
      forall k: nat | IsTop(entries, k)
        ensures k == t
      {
        IsTopUnique(entries, k, t);
      }
  }

  /** Ties keep the first entry: an entry whose confidence equals that of an
      earlier entry is never selected, since only a strictly greater
      confidence replaces the winner. */
  lemma TieKeepsFirst(entries: seq<Entry>, i: nat, j: nat)
    requires i < j < |entries|
    requires entries[i].confidence.Some? && entries[i].confidence == entries[j].confidence
    ensures TopIndex(entries) != Some(j)
  {
    TopIndexIsTop(entries);
    assert !IsTop(entries, j);
  }

  /** The `for…in` loop over `predictions` (routes/classify.js:88-96). */
  method SelectTop(predictions: seq<Entry>) returns (topPredictionClass: Option<string>, maxConfidence: real)
    ensures topPredictionClass == TopClass(predictions) && maxConfidence == TopConfidence(predictions)
    ensures topPredictionClass.None? <==> NoneScored(predictions)
    ensures forall k: nat | IsTop(predictions, k) ::
      topPredictionClass == Some(predictions[k].className) && Some(maxConfidence) == predictions[k].confidence
  {
    topPredictionClass := None;
    maxConfidence := 0.0;
    ghost var top: Option<nat> := None;
    for i := 0 to |predictions|
      invariant Scan(top, maxConfidence) == ScanPrefix(predictions, i)
      invariant top.Some? ==> top.value < i && topPredictionClass == Some(predictions[top.value].className)
      invariant top.None? ==> topPredictionClass.None?
    {
      var entry := predictions[i];
      if entry.confidence.Some? && entry.confidence.value > maxConfidence {
        maxConfidence := entry.confidence.value;
        topPredictionClass := Some(entry.className);
        top := Some(i);
      }
    }
    TopIndexIsTop(predictions);
  }
}
