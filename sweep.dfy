/**
 * What one check of the whole watchlist does to the per-symbol history and
 * which alerts it sends, as functions over values. The recursion takes the keys
 * one at a time in watchlist order, as the sweep's loop does; the lemmas relate
 * that sequential fold to a per-symbol description.
 */
module Sweep {
  import opened Wrappers
  import opened AlertPolicy
  import opened WatchedStocks

  /** What is remembered of a symbol once it has been fetched: its latest data and,
      if it ever alerted, when. */
  datatype Record = Record(currentData: Observation, lastAlert: Option<int>)

  type History = map<Symbol, Record>

  /** Outcome of fetching each symbol; a symbol without an answer counts as a failed fetch. */
  type Fetches = map<Symbol, Option<Observation>>

  /** An alert handed to the messenger; whether it was delivered does not matter here. */
  datatype Alert = Alert(symbol: Symbol, severity: Severity, data: Observation)

  function Lookup(h: History, s: Symbol): Option<Record>
  {
    if s in h then Some(h[s]) else None
  }

  function LastAlert(h: History, s: Symbol): Option<int>
  {
    if s in h then h[s].lastAlert else None
  }

  function FetchOf(fetches: Fetches, s: Symbol): Option<Observation>
  {
    if s in fetches then fetches[s] else None
  }

  predicate Covers(keys: seq<Symbol>, entries: map<Symbol, Entry>)
  {
    forall k :: k in keys ==> k in entries
  }

  /** Whether symbol `s` alerts when visited with history `h`. */
  predicate Fires(entries: map<Symbol, Entry>, h: History, fetches: Fetches, now: int, s: Symbol)
  {
    && s in entries
    && FetchOf(fetches, s).Some?
    && IsSignificantDip(entries[s].threshold, FetchOf(fetches, s).value, LastAlert(h, s), now)
  }

  /** The history after one symbol has been processed. */
  function Visit(h: History, s: Symbol, threshold: real, outcome: Option<Observation>, now: int): (r: History)
    ensures forall t :: t != s ==> Lookup(r, t) == Lookup(h, t)
    ensures outcome.None? ==> r == h
    ensures outcome.Some? ==>
      && s in r
      && r[s].currentData == outcome.value
      && (IsSignificantDip(threshold, outcome.value, LastAlert(h, s), now) ==> r[s].lastAlert == Some(now))
      && (!IsSignificantDip(threshold, outcome.value, LastAlert(h, s), now) ==> r[s].lastAlert == LastAlert(h, s))
  {
    match outcome
    case None => h
    case Some(data) =>
      var prior := LastAlert(h, s);
      h[s := Record(data, if IsSignificantDip(threshold, data, prior, now) then Some(now) else prior)]
  }

  /** The alert, if any, sent while processing one symbol. */
  function Alerted(h: History, s: Symbol, threshold: real, outcome: Option<Observation>, now: int): (r: seq<Alert>)
    ensures |r| <= 1
    ensures r != [] <==> outcome.Some? && IsSignificantDip(threshold, outcome.value, LastAlert(h, s), now)
    ensures forall a :: a in r ==> a.symbol == s && outcome == Some(a.data) && a.severity == Classify(a.data.pctChange)
  {
    match outcome
    case None => []
    case Some(data) =>
      if IsSignificantDip(threshold, data, LastAlert(h, s), now) then [Alert(s, Classify(data.pctChange), data)] else []
  }

  /** The history after processing `keys` in order, starting from `h`. */
  function SweepHistory(keys: seq<Symbol>, entries: map<Symbol, Entry>, h: History, fetches: Fetches, now: int): (r: History)
    requires Covers(keys, entries)
    ensures forall t :: t !in keys ==> Lookup(r, t) == Lookup(h, t)
    ensures forall t :: t in r ==> t in h || (t in keys && FetchOf(fetches, t).Some?)
    decreases |keys|
  {
    if keys == [] then h
    else
      var last := keys[|keys| - 1];
      var before := SweepHistory(keys[..|keys| - 1], entries, h, fetches, now);
      Visit(before, last, entries[last].threshold, FetchOf(fetches, last), now)
  }

  /** The alerts sent while processing `keys` in order, starting from `h`. */
  function SweepAlerts(keys: seq<Symbol>, entries: map<Symbol, Entry>, h: History, fetches: Fetches, now: int): (r: seq<Alert>)
    requires Covers(keys, entries)
    ensures |r| <= |keys|
    ensures forall a :: a in r ==> a.symbol in keys && FetchOf(fetches, a.symbol) == Some(a.data)
    decreases |keys|
  {
    if keys == [] then []
    else
      var last := keys[|keys| - 1];
      var before := SweepHistory(keys[..|keys| - 1], entries, h, fetches, now);
      SweepAlerts(keys[..|keys| - 1], entries, h, fetches, now)
        + Alerted(before, last, entries[last].threshold, FetchOf(fetches, last), now)
  }

  /** Reference description of the alerts: every key, in order, judged against the history
      as it was when the sweep began. */
  function FiredAlerts(keys: seq<Symbol>, entries: map<Symbol, Entry>, h: History, fetches: Fetches, now: int): (r: seq<Alert>)
    requires Covers(keys, entries)
    ensures |r| <= |keys|
    ensures forall a :: a in r ==> a.symbol in keys && FetchOf(fetches, a.symbol) == Some(a.data)
    decreases |keys|
  {
    if keys == [] then []
    else
      var last := keys[|keys| - 1];
      FiredAlerts(keys[..|keys| - 1], entries, h, fetches, now)
        + Alerted(h, last, entries[last].threshold, FetchOf(fetches, last), now)
  }

  /**
   * Since every symbol occurs once in the watchlist and processing a symbol reads and
   * writes only its own record, each record after the sweep is what processing that
   * symbol alone, from the starting history, would produce.
   */
  /** Extending the processed prefix by one key visits that key against the history the
      prefix left, and appends the alerts of that visit. */
  lemma SweepStep(keys: seq<Symbol>, entries: map<Symbol, Entry>, h: History, fetches: Fetches, now: int, i: nat)
    requires Covers(keys, entries) && i < |keys|
    ensures var before := SweepHistory(keys[..i], entries, h, fetches, now);
      var t := keys[i];
      && SweepHistory(keys[..i + 1], entries, h, fetches, now) == Visit(before, t, entries[t].threshold, FetchOf(fetches, t), now)
      && SweepAlerts(keys[..i + 1], entries, h, fetches, now)
           == SweepAlerts(keys[..i], entries, h, fetches, now) + Alerted(before, t, entries[t].threshold, FetchOf(fetches, t), now)
  {
    assert keys[..i + 1][..i] == keys[..i];
  }

  lemma {:induction false} SweepHistoryAt(keys: seq<Symbol>, entries: map<Symbol, Entry>, h: History, fetches: Fetches, now: int, t: Symbol)
    requires NoDup(keys) && Covers(keys, entries)
    ensures Lookup(SweepHistory(keys, entries, h, fetches, now), t) ==
      if t in keys then Lookup(Visit(h, t, entries[t].threshold, FetchOf(fetches, t), now), t) else Lookup(h, t)
  {
    if keys != [] {
      var init, last := keys[..|keys| - 1], keys[|keys| - 1];
      NoDupInit(keys);
      var before := SweepHistory(init, entries, h, fetches, now);
      SweepHistoryAt(init, entries, h, fetches, now, t);
      SweepHistoryAt(init, entries, h, fetches, now, last);
      assert LastAlert(before, last) == LastAlert(h, last);
      assert t in keys <==> t in init || t == last;
    }
  }

  /**
   * The effect of a sweep on each symbol: a symbol outside the watchlist or whose
   * fetch failed keeps its record untouched; every other symbol has its latest data
   * recorded, and its alert time becomes `now` if it alerted and stays as it was otherwise.
   */
  lemma {:induction false} SweepEffect(keys: seq<Symbol>, entries: map<Symbol, Entry>, h: History, fetches: Fetches, now: int, t: Symbol)
    requires NoDup(keys) && Covers(keys, entries)
    ensures var after := SweepHistory(keys, entries, h, fetches, now);
      && (t !in keys || FetchOf(fetches, t).None? ==> Lookup(after, t) == Lookup(h, t))
      && (t in keys && FetchOf(fetches, t).Some? ==>
            && t in after
            && after[t].currentData == FetchOf(fetches, t).value
            && after[t].lastAlert == if Fires(entries, h, fetches, now, t) then Some(now) else LastAlert(h, t))
  {
    SweepHistoryAt(keys, entries, h, fetches, now, t);
  }

  /** The alerts actually sent are the reference ones: the history the sweep has already
      updated never changes the decision for a symbol still to come. */
  lemma {:induction false} SweepAlertsAreFired(keys: seq<Symbol>, entries: map<Symbol, Entry>, h: History, fetches: Fetches, now: int)
    requires NoDup(keys) && Covers(keys, entries)
    ensures SweepAlerts(keys, entries, h, fetches, now) == FiredAlerts(keys, entries, h, fetches, now)
  {
    if keys != [] {
      var init, last := keys[..|keys| - 1], keys[|keys| - 1];
      NoDupInit(keys);
      SweepAlertsAreFired(init, entries, h, fetches, now);
      SweepHistoryAt(init, entries, h, fetches, now, last);
      assert LastAlert(SweepHistory(init, entries, h, fetches, now), last) == LastAlert(h, last);
    }
  }

  /**
   * A sweep sends exactly one alert per symbol of the watchlist that fires (fetched, dipped,
   * volume confirmed, not in cooldown), carrying that symbol's data and severity, and none
   * for any other symbol.
   */
  lemma {:induction false} FiredAlertsExactly(keys: seq<Symbol>, entries: map<Symbol, Entry>, h: History, fetches: Fetches, now: int)
    requires NoDup(keys) && Covers(keys, entries)
    ensures forall a :: a in FiredAlerts(keys, entries, h, fetches, now) <==>
      && a.symbol in keys
      && Fires(entries, h, fetches, now, a.symbol)
      && a == Alert(a.symbol, Classify(FetchOf(fetches, a.symbol).value.pctChange), FetchOf(fetches, a.symbol).value)
    ensures DistinctSymbols(FiredAlerts(keys, entries, h, fetches, now))
  {
    if keys != [] {
      var init, last := keys[..|keys| - 1], keys[|keys| - 1];
      NoDupInit(keys);
      FiredAlertsExactly(init, entries, h, fetches, now);
      var r0 := FiredAlerts(init, entries, h, fetches, now);
      var step := Alerted(h, last, entries[last].threshold, FetchOf(fetches, last), now);
      assert FiredAlerts(keys, entries, h, fetches, now) == r0 + step;
      assert forall a :: a in step ==> a.symbol == last;
      assert forall x :: x in keys <==> x in init || x == last;
      forall i | 0 <= i < |r0| ensures r0[i].symbol != last {
        assert r0[i] in r0;
      }
      var r := r0 + step;
      forall i, j | 0 <= i < j < |r| ensures r[i].symbol != r[j].symbol {
        if j < |r0| {
          assert r[i] == r0[i] && r[j] == r0[j];
        } else {
          assert r[j] == step[j - |r0|];
          assert r[j] in step;
          assert r[i] == r0[i];
        }
      }
    }
  }

  /** No two alerts of the sequence are for the same symbol. */
  predicate DistinctSymbols(alerts: seq<Alert>)
  {
    forall i, j :: 0 <= i < j < |alerts| ==> alerts[i].symbol != alerts[j].symbol
  }

  /** A symbol alerted less than four hours before `now` neither alerts again nor
      loses its alert time in this sweep. */
  lemma {:induction false} CooldownHolds(keys: seq<Symbol>, entries: map<Symbol, Entry>, h: History, fetches: Fetches, now: int, s: Symbol, last: int)
    requires NoDup(keys) && Covers(keys, entries)
    requires LastAlert(h, s) == Some(last) && now - last < CooldownSeconds
    ensures forall a :: a in SweepAlerts(keys, entries, h, fetches, now) ==> a.symbol != s
    ensures LastAlert(SweepHistory(keys, entries, h, fetches, now), s) == Some(last)
  {
    SweepAlertsAreFired(keys, entries, h, fetches, now);
    FiredAlertsExactly(keys, entries, h, fetches, now);
    SweepEffect(keys, entries, h, fetches, now, s);
  }

  /**
   * No symbol alerts twice within four hours: if a sweep at `now1` alerted for `a.symbol`,
   * a later sweep at `now2 < now1 + 4h` does not, whatever the watchlist and the fetches
   * are by then, and the symbol keeps the alert time `now1`.
   */
  lemma NoDoubleAlert(w1: Watchlist, w2: Watchlist, h: History, fetches1: Fetches, fetches2: Fetches, now1: int, now2: int, a: Alert)
    requires w1.Valid() && w2.Valid()
    requires a in SweepAlerts(w1.keys, w1.entries, h, fetches1, now1)
    requires now2 - now1 < CooldownSeconds
    ensures var h1 := SweepHistory(w1.keys, w1.entries, h, fetches1, now1);
      && (forall b :: b in SweepAlerts(w2.keys, w2.entries, h1, fetches2, now2) ==> b.symbol != a.symbol)
      && LastAlert(SweepHistory(w2.keys, w2.entries, h1, fetches2, now2), a.symbol) == Some(now1)
  {
    SweepAlertsAreFired(w1.keys, w1.entries, h, fetches1, now1);
    FiredAlertsExactly(w1.keys, w1.entries, h, fetches1, now1);
    SweepEffect(w1.keys, w1.entries, h, fetches1, now1, a.symbol);
    var h1 := SweepHistory(w1.keys, w1.entries, h, fetches1, now1);
    assert LastAlert(h1, a.symbol) == Some(now1);
    CooldownHolds(w2.keys, w2.entries, h1, fetches2, now2, a.symbol, now1);
  }
}
