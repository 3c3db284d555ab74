/**
 * The chat bot around the monitor: the watchlist commands and the flag that keeps a
 * manual check and the scheduled check from running a sweep at the same time.
 */
module Bot {
  import opened Wrappers
  import opened WatchedStocks
  import opened Sweep
  import opened Monitor
  import opened AlertPolicy

  /** Outcome of a check request: refused because a check is running, or the alerts sent. */
  datatype Trigger = AlreadyChecking | Checked(sent: seq<Alert>)

  class TelegramStockBot {
    var monitor: StockDipMonitor
    var isChecking: bool

    ghost predicate Valid()
      reads this, monitor
    {
      monitor.Valid()
    }

    constructor (initial: Watchlist)
      requires initial.Valid()
      ensures Valid() && fresh(monitor) && !isChecking
      ensures monitor.watched == initial && monitor.history == map[]
    {
      monitor := new StockDipMonitor(initial);
      isChecking := false;
    }

    /** `/add SYMBOL THRESHOLD NAME...`; the history of every symbol is left as it was. */
    method AddStockCommand(args: seq<string>, parseFloat: string -> Option<real>) returns (reply: Reply)
      requires Valid()
      modifies monitor
      ensures Valid()
      ensures (monitor.watched, reply) == AddStock(old(monitor.watched), args, parseFloat)
      ensures monitor.history == old(monitor.history)
    {
      var result := AddStock(monitor.watched, args, parseFloat);
      monitor.watched := result.0;
      reply := result.1;
    }

    /** `/remove SYMBOL`; a removed symbol keeps its history, cooldown included. */
    method RemoveStockCommand(args: seq<string>) returns (reply: Reply)
      requires Valid()
      modifies monitor
      ensures Valid()
      ensures (monitor.watched, reply) == RemoveStock(old(monitor.watched), args)
      ensures monitor.history == old(monitor.history)
    {
      var result := RemoveStock(monitor.watched, args);
      monitor.watched := result.0;
      reply := result.1;
    }

    /**
     * `/check`: refused without any effect while a check is running; otherwise the flag
     * is raised, one sweep runs, and the flag is lowered again.
     */
    method ManualCheckCommand(fetches: Fetches, now: int) returns (result: Trigger)
      requires Valid()
      modifies this, monitor
      ensures Valid() && monitor == old(monitor)
      ensures isChecking == old(isChecking)
      ensures monitor.watched == old(monitor.watched)
      ensures old(isChecking) ==> result == AlreadyChecking && monitor.history == old(monitor.history)
      ensures !old(isChecking) ==>
        && result == Checked(FiredAlerts(old(monitor.watched).keys, old(monitor.watched).entries, old(monitor.history), fetches, now))
        && monitor.history == SweepHistory(old(monitor.watched).keys, old(monitor.watched).entries, old(monitor.history), fetches, now)
    {
      if isChecking {
        return AlreadyChecking;
      }
      isChecking := true;
      var sent := monitor.CheckStocks(fetches, now);
      result := Checked(sent);
      isChecking := false;
    }

    /**
     * The check run by the periodic loop: skipped silently while a check is running,
     * otherwise the same sweep under the same flag.
     */
    method ScheduledCheck(fetches: Fetches, now: int) returns (result: Trigger)
      requires Valid()
      modifies this, monitor
      ensures Valid() && monitor == old(monitor)
      ensures isChecking == old(isChecking)
      ensures monitor.watched == old(monitor.watched)
      ensures old(isChecking) ==> result == AlreadyChecking && monitor.history == old(monitor.history)
      ensures !old(isChecking) ==>
        && result == Checked(FiredAlerts(old(monitor.watched).keys, old(monitor.watched).entries, old(monitor.history), fetches, now))
        && monitor.history == SweepHistory(old(monitor.watched).keys, old(monitor.watched).entries, old(monitor.history), fetches, now)
    {
      result := AlreadyChecking;
      if !isChecking {
        isChecking := true;
        var sent := monitor.CheckStocks(fetches, now);
        result := Checked(sent);
        isChecking := false;
      }
    }

    /**
     * A scheduled tick that arrives while a manual check holds the flag is refused and
     * leaves the monitor as it was. Once the manual check has swept and lowered the flag,
     * a tick at `later` runs a sweep over the history the manual check left behind, and
     * within four hours it alerts no symbol that the manual check alerted.
     */
    method OverlappingChecks(fetches: Fetches, now: int, laterFetches: Fetches, later: int) returns (during: Trigger, after: Trigger)
      requires Valid() && !isChecking
      modifies this, monitor
      ensures Valid() && !isChecking
      ensures monitor.watched == old(monitor.watched)
      ensures during == AlreadyChecking
      ensures var w := old(monitor.watched);
        monitor.history == SweepHistory(w.keys, w.entries, SweepHistory(w.keys, w.entries, old(monitor.history), fetches, now), laterFetches, later)
      ensures var w, manual := old(monitor.watched), SweepHistory(old(monitor.watched).keys, old(monitor.watched).entries, old(monitor.history), fetches, now);
        && after == Checked(FiredAlerts(w.keys, w.entries, manual, laterFetches, later))
        && (later - now < CooldownSeconds ==>
              forall a, b :: a in FiredAlerts(w.keys, w.entries, old(monitor.history), fetches, now) && b in after.sent ==> a.symbol != b.symbol)
    {
      ghost var w, h0 := monitor.watched, monitor.history;
      isChecking := true;
      during := ScheduledCheck(fetches, now);
      assert monitor.history == h0;
      var _ := monitor.CheckStocks(fetches, now);
      isChecking := false;
      after := ScheduledCheck(laterFetches, later);
      if later - now < CooldownSeconds {
        var manual := SweepHistory(w.keys, w.entries, h0, fetches, now);
        SweepAlertsAreFired(w.keys, w.entries, h0, fetches, now);
        SweepAlertsAreFired(w.keys, w.entries, manual, laterFetches, later);
        forall a | a in FiredAlerts(w.keys, w.entries, h0, fetches, now)
          ensures forall b :: b in after.sent ==> a.symbol != b.symbol
        {
          NoDoubleAlert(w, w, h0, fetches, laterFetches, now, later, a);
        }
      }
    }
  }
}
