/**
 * The dip monitor: it owns the watchlist and the per-symbol history and, on each
 * check, walks the watchlist updating the history in place.
 */
module Monitor {
  import opened Wrappers
  import opened AlertPolicy
  import opened WatchedStocks
  import opened Sweep

  class StockDipMonitor {
    var watched: Watchlist
    var history: History

    ghost predicate Valid()
      reads this
    {
      watched.Valid()
    }

    /** A monitor over the given watchlist that has not fetched anything yet. */
    constructor (initial: Watchlist)
      requires initial.Valid()
      ensures Valid() && watched == initial && history == map[]
    {
      watched := initial;
      history := map[];
    }

    /**
     * The work of the sweep for one symbol with the given threshold: skip it when the
     * fetch failed, otherwise record the data and, when the dip is significant, send an
     * alert and stamp `now` as its last alert.
     */
    method CheckSymbol(symbol: Symbol, threshold: real, fetches: Fetches, now: int) returns (alerts: seq<Alert>)
      modifies this
      ensures watched == old(watched)
      ensures history == Visit(old(history), symbol, threshold, FetchOf(fetches, symbol), now)
      ensures alerts == Alerted(old(history), symbol, threshold, FetchOf(fetches, symbol), now)
    {
      alerts := [];
      match FetchOf(fetches, symbol) {
        case None =>
          // no data: skip the symbol
        case Some(data) =>
          var prior := LastAlert(history, symbol);
          history := history[symbol := Record(data, prior)];
          if IsSignificantDip(threshold, data, prior, now) {
            alerts := [Alert(symbol, Classify(data.pctChange), data)];
            history := history[symbol := Record(data, Some(now))];
          }
      }
    }

    /**
     * One check of every watched symbol, in watchlist order, against the fetch outcomes
     * `fetches` at time `now`. Returns the alerts handed to the messenger; each is stamped
     * in the history whether or not it was delivered.
     */
    method CheckStocks(fetches: Fetches, now: int) returns (sent: seq<Alert>)
      requires Valid()
      modifies this
      ensures Valid() && watched == old(watched)
      ensures history == SweepHistory(old(watched).keys, old(watched).entries, old(history), fetches, now)
      ensures sent == FiredAlerts(old(watched).keys, old(watched).entries, old(history), fetches, now)
    {
      var snapshot := watched;
      sent := [];
      var i := 0;
      while i < |snapshot.keys|
        invariant 0 <= i <= |snapshot.keys|
        invariant watched == snapshot && Covers(snapshot.keys[..i], snapshot.entries)
        invariant history == SweepHistory(snapshot.keys[..i], snapshot.entries, old(history), fetches, now)
        invariant sent == SweepAlerts(snapshot.keys[..i], snapshot.entries, old(history), fetches, now)
      {
        var symbol := snapshot.keys[i];
        var alerts := CheckSymbol(symbol, snapshot.entries[symbol].threshold, fetches, now);
        sent := sent + alerts;
        SweepStep(snapshot.keys, snapshot.entries, old(history), fetches, now, i);
        assert Covers(snapshot.keys[..i + 1], snapshot.entries);
        i := i + 1;
      }
      assert snapshot.keys[..i] == snapshot.keys;
      SweepAlertsAreFired(snapshot.keys, snapshot.entries, old(history), fetches, now);
    }
  }
}
