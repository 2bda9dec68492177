/**
 * The ledger over a whole stream of alerts, as the service sees them from
 * start-up: what the counters add up to, which entry each symbol holds, and
 * what a TRAIL is labelled against.
 */
module History {
  import opened Wrappers
  import opened Ledger
  import PyStr
  import Coercion

  /** The ledger after processing `alerts` in order, starting from `st`. */
  function Replay(st: State, alerts: seq<Alert>): State {
    if alerts == [] then st
    else Process(Replay(st, alerts[..|alerts| - 1]), alerts[|alerts| - 1]).0
  }

  /** The outcomes the alerts produced, in order. */
  function Outcomes(st: State, alerts: seq<Alert>): seq<Outcome> {
    if alerts == [] then []
    else
      var o := Process(Replay(st, alerts[..|alerts| - 1]), alerts[|alerts| - 1]).1;
      Outcomes(st, alerts[..|alerts| - 1]) + (if o.Some? then [o.value] else [])
  }

  function CountWins(os: seq<Outcome>): nat {
    if os == [] then 0
    else CountWins(os[..|os| - 1]) + (if os[|os| - 1].result == Win then 1 else 0)
  }

  /** The entry an alert stores, if it is a storable ENTRY for `symbol`. */
  function EntryFor(a: Alert, symbol: string): Option<Entry> {
    var e := Normalize(a);
    if StoresEntry(e.typ, e.side, e.price) && e.symbol == symbol then Some(Entry(e.side, e.price.value))
    else None
  }

  /** Reference definition: the entry of the last storable ENTRY alert for `symbol`. */
  function LastEntry(alerts: seq<Alert>, symbol: string): Option<Entry> {
    if alerts == [] then None
    else if EntryFor(alerts[|alerts| - 1], symbol).Some? then EntryFor(alerts[|alerts| - 1], symbol)
    else LastEntry(alerts[..|alerts| - 1], symbol)
  }

  function Lookup(trades: map<string, Entry>, symbol: string): Option<Entry> {
    if symbol in trades then Some(trades[symbol]) else None
  }

  /**
   * The counters are exactly a tally of the outcomes produced: `total` counts
   * them, `wins` counts the wins and `losses` the rest.
   */
  lemma {:induction false} ReplayCounts(st: State, alerts: seq<Alert>)
    ensures var s := Replay(st, alerts).stats; var os := Outcomes(st, alerts);
      && s.total == st.stats.total + |os|
      && s.wins == st.stats.wins + CountWins(os)
      && s.losses == st.stats.losses + (|os| - CountWins(os))
  {
    if alerts != [] {
      var prefix := alerts[..|alerts| - 1];
      ReplayCounts(st, prefix);
      var os := Outcomes(st, prefix);
      var o := Process(Replay(st, prefix), alerts[|alerts| - 1]).1;
      if o.Some? {
        var os' := os + [o.value];
        assert os'[..|os'| - 1] == os;
      } else {
        assert os + [] == os;
      }
      CountWinsBound(os);
    }
  }

  lemma {:induction false} CountWinsBound(os: seq<Outcome>)
    ensures CountWins(os) <= |os|
  {
    if os != [] {
      CountWinsBound(os[..|os| - 1]);
    }
  }

  /** From start-up, `wins + losses == total` holds after any stream of alerts. */
  lemma ReplayBalanced(alerts: seq<Alert>)
    ensures Balanced(Replay(Initial, alerts).stats)
  {
    ReplayCounts(Initial, alerts);
    CountWinsBound(Outcomes(Initial, alerts));
  }

  /**
   * From start-up, the entry held for a symbol is the one from the last
   * storable ENTRY alert for that symbol: entries are overwritten, never
   * removed, and alerts for other symbols do not touch them.
   */
  lemma {:induction false} ReplayLastEntry(alerts: seq<Alert>, symbol: string)
    ensures Lookup(Replay(Initial, alerts).lastTrade, symbol) == LastEntry(alerts, symbol)
  {
    if alerts != [] {
      ReplayLastEntry(alerts[..|alerts| - 1], symbol);
    }
  }

  /** From start-up, every stored entry is a BUY or a SELL. */
  lemma {:induction false} ReplaySidesKnown(alerts: seq<Alert>)
    ensures SidesKnown(Replay(Initial, alerts).lastTrade)
  {
    if alerts != [] {
      ReplaySidesKnown(alerts[..|alerts| - 1]);
    }
  }

  /**
   * A TRAIL with a price, after any stream of alerts, is labelled against the
   * last stored ENTRY for its symbol, and is labelled whenever there is one.
   */
  lemma TrailUsesLastEntry(alerts: seq<Alert>, trail: Alert)
    requires LabelsOutcome(Normalize(trail))
    ensures var e := Normalize(trail);
      var o := Process(Replay(Initial, alerts), trail).1;
      match LastEntry(alerts, e.symbol)
      case None => o == None
      case Some(entry) =>
        && o.Some?
        && o.value.entrySide == entry.side
        && o.value.entryPrice == entry.entryPrice
        && Judge(entry.side, entry.entryPrice, e.price.value) == Some(o.value.result)
  {
    var e := Normalize(trail);
    ReplayLastEntry(alerts, e.symbol);
    ReplaySidesKnown(alerts);
  }

  /**
   * Labelling does not consume the entry: the same TRAIL processed twice gives
   * the same outcome both times and counts it twice.
   */
  lemma TrailRepeats(st: State, trail: Alert)
    requires LabelsOutcome(Normalize(trail))
    ensures var (st1, o1) := Process(st, trail);
      var (st2, o2) := Process(st1, trail);
      && o2 == o1
      && st2.lastTrade == st.lastTrade
      && st2.stats.total == st.stats.total + (if o1.Some? then 2 else 0)
  {
  }

  /** The side sent with a TRAIL has no effect on the ledger or the outcome. */
  lemma TrailSideIgnored(st: State, trail: Alert, otherSide: Option<string>)
    requires Normalize(trail).typ == "TRAIL"
    ensures Process(st, trail) == Process(st, trail.(eventSide := otherSide))
  {
  }

  /** Worked instance of reading an alert: case is folded and a missing side reads as `N/A`. */
  lemma NormalizeExample()
    ensures Normalize(Alert(Some("entry"), Some("buy"), Some("NQ"), Coercion.Number(18000.0)))
      == Event("ENTRY", "BUY", "NQ", Some(18000.0))
    ensures Normalize(Alert(Some("trail"), None, Some("NQ"), Coercion.Number(18050.0)))
      == Event("TRAIL", "N/A", "NQ", Some(18050.0))
  {
    assert PyStr.Upper("entry") == "ENTRY";
    assert PyStr.Upper("buy") == "BUY";
    assert PyStr.Upper("trail") == "TRAIL";
    assert PyStr.Upper("N/A") == "N/A";
  }

  /**
   * An ENTRY followed by a TRAIL for the same symbol, whatever came before:
   * the TRAIL is judged against that ENTRY (a BUY wins above its price, a
   * SELL below it), `total` goes up by one, and the entry stays stored.
   */
  lemma EntryThenTrail(st: State, side: string, symbol: string, entryPrice: real, trailSide: string, exitPrice: real)
    requires IsTradeSide(side)
    ensures var (st1, o1) := Apply(st, Event("ENTRY", side, symbol, Some(entryPrice)));
      var (st2, o2) := Apply(st1, Event("TRAIL", trailSide, symbol, Some(exitPrice)));
      && o1 == None
      && o2.Some?
      && o2.value.entrySide == side && o2.value.entryPrice == entryPrice
      && (o2.value.result == Win <==> if side == "BUY" then exitPrice > entryPrice else exitPrice < entryPrice)
      && st2.stats.total == st.stats.total + 1
      && st2.lastTrade == st.lastTrade[symbol := Entry(side, entryPrice)]
  {
  }
}
