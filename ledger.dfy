/**
 * The in-memory trade ledger behind the alert webhook: the last ENTRY stored
 * per symbol and the running win/loss counters, with the rules that update
 * them. The pure functions below specify each step; the class `TradeLedger`
 * performs the steps in place, as the module-level `last_trade` and `stats`
 * dictionaries are updated.
 */
module Ledger {
  import opened Wrappers
  import opened PyStr
  import opened Coercion

  /** The stored part of an ENTRY: its side and its price (the timestamp is not modelled). */
  datatype Entry = Entry(side: string, entryPrice: real)

  datatype Verdict = Win | Loss

  /** What labelling an exit against the stored entry reports. */
  datatype Outcome = Outcome(result: Verdict, entrySide: string, entryPrice: real, exitPrice: real, symbol: string)

  /** The `stats` counters. */
  datatype Stats = Stats(wins: nat, losses: nat, total: nat)

  /** The whole ledger: `last_trade` and `stats`. */
  datatype State = State(lastTrade: map<string, Entry>, stats: Stats)

  /** Every labelled outcome is exactly one of a win or a loss. */
  predicate Balanced(s: Stats) {
    s.wins + s.losses == s.total
  }

  predicate IsTradeSide(side: string) {
    side == "BUY" || side == "SELL"
  }

  /** Every stored entry has a side that can be labelled. */
  predicate SidesKnown(trades: map<string, Entry>) {
    forall symbol :: symbol in trades ==> IsTradeSide(trades[symbol].side)
  }

  /** The ledger at start-up: nothing stored, all counters zero. */
  const Initial := State(map[], Stats(0, 0, 0))

  /**
   * The verdict on an exit against an entry: a BUY wins when the exit is above
   * the entry, a SELL when it is below; an exit at the entry price loses; any
   * other side cannot be judged.
   */
  function Judge(side: string, entryPrice: real, exitPrice: real): (v: Option<Verdict>)
    ensures v.Some? <==> IsTradeSide(side)
    ensures side == "BUY" ==> (v == Some(Win) <==> exitPrice > entryPrice)
    ensures side == "SELL" ==> (v == Some(Win) <==> exitPrice < entryPrice)
    ensures exitPrice == entryPrice ==> v != Some(Win)
  {
    if side == "BUY" then Some(if exitPrice > entryPrice then Win else Loss)
    else if side == "SELL" then Some(if exitPrice < entryPrice then Win else Loss)
    else None
  }

  /**
   * `label_outcome`'s result: nothing when no entry is stored for the symbol
   * or its side cannot be judged; otherwise the verdict together with the
   * entry it was judged against.
   */
  function OutcomeOf(trades: map<string, Entry>, symbol: string, exitPrice: real): (o: Option<Outcome>)
    ensures o.Some? <==> symbol in trades && IsTradeSide(trades[symbol].side)
    ensures o.Some? ==>
      && o.value.symbol == symbol
      && o.value.exitPrice == exitPrice
      && Entry(o.value.entrySide, o.value.entryPrice) == trades[symbol]
      && Judge(o.value.entrySide, o.value.entryPrice, exitPrice) == Some(o.value.result)
  {
    if symbol !in trades then None
    else
      var t := trades[symbol];
      match Judge(t.side, t.entryPrice, exitPrice)
      case None => None
      case Some(v) => Some(Outcome(v, t.side, t.entryPrice, exitPrice, symbol))
  }

  /**
   * The counters after a labelling attempt: a result adds one to `total` and
   * one to exactly one of `wins` and `losses`; no result changes nothing.
   */
  function Tally(s: Stats, o: Option<Outcome>): (r: Stats)
    ensures r.total == s.total + (if o.Some? then 1 else 0)
    ensures r.wins + r.losses == s.wins + s.losses + (if o.Some? then 1 else 0)
    ensures r.wins == s.wins + (if o.Some? && o.value.result == Win then 1 else 0)
    ensures Balanced(s) ==> Balanced(r)
  {
    match o
    case None => s
    case Some(out) =>
      if out.result == Win then Stats(s.wins + 1, s.losses, s.total + 1)
      else Stats(s.wins, s.losses + 1, s.total + 1)
  }

  /** Whether an alert's fields make it an ENTRY that gets stored. */
  predicate StoresEntry(typ: string, side: string, price: Option<real>) {
    typ == "ENTRY" && price.Some? && IsTradeSide(side)
  }

  /**
   * `last_trade` after an alert: a storable ENTRY sets (or overwrites) the
   * entry for its symbol; every other symbol, and every other alert, leaves
   * the map as it was.
   */
  function Recorded(trades: map<string, Entry>, typ: string, side: string, symbol: string, price: Option<real>)
    : (r: map<string, Entry>)
    ensures StoresEntry(typ, side, price) ==> symbol in r && r[symbol] == Entry(side, price.value)
    ensures !StoresEntry(typ, side, price) ==> r == trades
    ensures r.Keys == trades.Keys + (if StoresEntry(typ, side, price) then {symbol} else {})
    ensures forall s :: s in trades && s != symbol ==> r[s] == trades[s]
    ensures SidesKnown(trades) ==> SidesKnown(r)
  {
    if StoresEntry(typ, side, price) then trades[symbol := Entry(side, price.value)] else trades
  }

  /**
   * A webhook body, already decoded. `eventType` and `eventSide` are the
   * `type` and `side` keys of its `event` object, `symbol` its `symbol` key,
   * each as the text `str()` gives, or `None` when the key is absent (or the
   * event is not an object); `price` is the raw `price` value.
   */
  datatype Alert = Alert(eventType: Option<string>, eventSide: Option<string>, symbol: Option<string>, price: Value)

  /** The alert's fields as the webhook reads them, defaults and case folding applied. */
  datatype Event = Event(typ: string, side: string, symbol: string, price: Option<real>)

  function Normalize(a: Alert): (e: Event)
    ensures a.eventType.None? ==> e.typ == "ENTRY"
    ensures a.eventSide.None? ==> e.side == "N/A"
    ensures a.symbol.None? ==> e.symbol == "N/A"
    ensures a.eventType.Some? ==> e.typ == Upper(a.eventType.value)
    ensures a.eventSide.Some? ==> e.side == Upper(a.eventSide.value)
    ensures a.symbol.Some? ==> e.symbol == a.symbol.value
    ensures e.price == ToFloat(a.price)
  {
    Event(Upper(a.eventType.GetOr("ENTRY")), Upper(a.eventSide.GetOr("N/A")), a.symbol.GetOr("N/A"), ToFloat(a.price))
  }

  /**
   * An alert reads as an ENTRY exactly when its type is missing or is `entry`
   * in any mix of ASCII letter case.
   */
  lemma ReadsAsEntry(a: Alert)
    ensures Normalize(a).typ == "ENTRY" <==> a.eventType.None? || CaseVariants(a.eventType.value, "ENTRY")
  {
    if a.eventType.Some? {
      UpperIsWord(a.eventType.value, "ENTRY");
    }
  }

  /** An alert reads as a TRAIL exactly when its type is `trail` in any mix of ASCII letter case. */
  lemma ReadsAsTrail(a: Alert)
    ensures Normalize(a).typ == "TRAIL" <==> a.eventType.Some? && CaseVariants(a.eventType.value, "TRAIL")
  {
    if a.eventType.Some? {
      UpperIsWord(a.eventType.value, "TRAIL");
    } else {
      assert Normalize(a).typ == "ENTRY";
    }
  }

  /**
   * An alert's side reads as a trade side exactly when it is `buy` or `sell`
   * in any mix of ASCII letter case; a missing side never does.
   */
  lemma ReadsAsTradeSide(a: Alert)
    ensures IsTradeSide(Normalize(a).side) <==>
      a.eventSide.Some? && (CaseVariants(a.eventSide.value, "BUY") || CaseVariants(a.eventSide.value, "SELL"))
  {
    if a.eventSide.Some? {
      UpperIsWord(a.eventSide.value, "BUY");
      UpperIsWord(a.eventSide.value, "SELL");
    } else {
      assert Normalize(a).side == "N/A";
    }
  }

  /** Whether the alert is a TRAIL whose price coerces, the case that labels an outcome. */
  predicate LabelsOutcome(e: Event) {
    e.typ == "TRAIL" && e.price.Some?
  }

  /**
   * The ledger part of the webhook on a normalized alert: store an ENTRY,
   * then label a TRAIL. Only a storable ENTRY changes `last_trade`; only a
   * TRAIL with a price can change `stats` or produce an outcome; both
   * invariants are kept.
   */
  function Apply(st: State, e: Event): (r: (State, Option<Outcome>))
    ensures !StoresEntry(e.typ, e.side, e.price) ==> r.0.lastTrade == st.lastTrade
    ensures !LabelsOutcome(e) ==> r.0.stats == st.stats && r.1 == None
    ensures LabelsOutcome(e) ==> r.1 == OutcomeOf(st.lastTrade, e.symbol, e.price.value)
    ensures r.0.lastTrade == Recorded(st.lastTrade, e.typ, e.side, e.symbol, e.price)
    ensures LabelsOutcome(e) ==> r.0.stats == Tally(st.stats, r.1)
    ensures Balanced(st.stats) ==> Balanced(r.0.stats)
    ensures SidesKnown(st.lastTrade) ==> SidesKnown(r.0.lastTrade)
  {
    var trades := Recorded(st.lastTrade, e.typ, e.side, e.symbol, e.price);
    if LabelsOutcome(e) then
      var o := OutcomeOf(trades, e.symbol, e.price.value);
      (State(trades, Tally(st.stats, o)), o)
    else
      (State(trades, st.stats), None)
  }

  /** The ledger part of the webhook for one decoded alert. */
  function Process(st: State, a: Alert): (State, Option<Outcome>) {
    Apply(st, Normalize(a))
  }

  /** The ledger as the service holds it, updated in place by each alert. */
  class TradeLedger {
    var lastTrade: map<string, Entry>
    var wins: nat
    var losses: nat
    var total: nat

    ghost predicate Valid()
      reads this
    {
      Balanced(Counters())
    }

    ghost function Counters(): Stats
      reads this
    {
      Stats(wins, losses, total)
    }

    ghost function Snapshot(): State
      reads this
    {
      State(lastTrade, Counters())
    }

    constructor ()
      ensures Valid() && Snapshot() == Initial
    {
      lastTrade := map[];
      wins, losses, total := 0, 0, 0;
    }

    /** The ENTRY branch of the webhook (`typ` and `side` already upper-cased). */
    method RecordEntry(typ: string, side: string, symbol: string, price: Option<real>)
      modifies this
      ensures lastTrade == Recorded(old(lastTrade), typ, side, symbol, price)
      ensures Counters() == old(Counters())
    {
      if typ == "ENTRY" && price.Some? && (side == "BUY" || side == "SELL") {
        lastTrade := lastTrade[symbol := Entry(side, price.value)];
      }
    }

    /**
     * `label_outcome`: judge the exit against the stored entry and count the
     * result. The stored entry is only read, and `exitSide` plays no part.
     */
    method LabelOutcome(symbol: string, exitPrice: real, exitSide: string) returns (o: Option<Outcome>)
      requires Valid()
      modifies this
      ensures Valid()
      ensures o == OutcomeOf(old(lastTrade), symbol, exitPrice)
      ensures lastTrade == old(lastTrade)
      ensures Counters() == Tally(old(Counters()), o)
    {
      if symbol !in lastTrade {
        return None;
      }
      var t := lastTrade[symbol];
      var win: bool;
      if t.side == "BUY" {
        win := exitPrice > t.entryPrice;
      } else if t.side == "SELL" {
        win := exitPrice < t.entryPrice;
      } else {
        return None;
      }
      total := total + 1;
      if win {
        wins := wins + 1;
        o := Some(Outcome(Win, t.side, t.entryPrice, exitPrice, symbol));
      } else {
        losses := losses + 1;
        o := Some(Outcome(Loss, t.side, t.entryPrice, exitPrice, symbol));
      }
    }

    /** The ledger part of the webhook handler, for one decoded alert. */
    method Webhook(a: Alert) returns (o: Option<Outcome>)
      requires Valid()
      modifies this
      ensures Valid()
      ensures (Snapshot(), o) == Process(old(Snapshot()), a)
    {
      var typ := Upper(a.eventType.GetOr("ENTRY"));
      var side := Upper(a.eventSide.GetOr("N/A"));
      var symbol := a.symbol.GetOr("N/A");
      var price := ToFloat(a.price);
      RecordEntry(typ, side, symbol, price);
      o := None;
      if typ == "TRAIL" && price.Some? {
        o := LabelOutcome(symbol, price.value, side);
      }
    }
  }
}
