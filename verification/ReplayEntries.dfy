/** What becomes of the strategy's intents in a replay (backtest/engine_replay.py:82-138): which one waits after a minute,
    which bar takes it up, and that it is on the record if and only if it was filled. */
module ReplayEntries {
  import opened Types
  import opened Steps
  import opened EngineTypes
  import opened EngineModel
  import opened PaperRuns
  import opened ExitPrices
  import opened EntryRules
  import opened Replay
  import Accounting
  import Placebo
  import W = Witnesses

  /** The engine when the strategy is asked: after the fundings and the bar of minute `k`. */
  function WhenAsked(c: Config, st: ReplayState, b: Bar, x: Choice, fs: seq<Funding>): EngineState {
    EngineMinute(c, SettleMinute(c, st.eng, fs, b.openMs), b, x.exitAtOpen).st
  }

  /** The engine took `i` from the strategy in minute `k`: it was flat, unblocked, with nothing pending, and `i` was in order. */
  ghost predicate Gave(c: Config, equity: real, bars: seq<Bar>, xs: seq<Choice>, fs: seq<Funding>, k: nat, i: EntryIntent) {
    && k < |bars| && k < |xs| && xs[k].intent == Some(i)
    && var st := Run(c, equity, bars, xs, fs, k);
      st.Some? && Welcome(c, WhenAsked(c, st.value, bars[k], xs[k], fs), i)
  }

  /** No bar between has opened after the decision. */
  predicate NotYetDue(bars: seq<Bar>, k: nat, n: nat, i: EntryIntent)
    requires n <= |bars|
  {
    forall j :: k < j < n ==> bars[j].openMs <= i.decidedMs
  }

  lemma SettleKeepsPending(c: Config, s: EngineState, fs: seq<Funding>, t: int)
    ensures var r := SettleMinute(c, s, fs, t); r.pending == s.pending && r.position.Some? == s.position.Some?
  {
    if s.position.Some? { SettleDueFrame(c, s, fs, t, t + MINUTE_MS); }
  }

  lemma {:induction false} SettleDueFrame(c: Config, s: EngineState, fs: seq<Funding>, lo: int, hi: int)
    requires s.position.Some?
    ensures SettleDue(c, s, fs, lo, hi).pending == s.pending
    decreases |fs|
  {
    if fs != [] { SettleDueFrame(c, s, fs[..|fs| - 1], lo, hi); }
  }

  /** The engine's part of a minute takes up a pending intent exactly if the bar opens after its decision, and no other way. */
  lemma EnginePending(c: Config, s: EngineState, b: Bar, exitAtOpen: bool)
    requires c.mode.Paper? && !EngineMinute(c, s, b, exitAtOpen).raised
    ensures
      var st := EngineMinute(c, s, b, exitAtOpen).st;
      && (s.pending.None? ==> st.pending.None?)
      && (s.pending.Some? ==> !exitAtOpen && st.pending == if b.openMs > s.pending.value.decidedMs then None else s.pending)
  {
    hide ExecuteEntry, JudgeBar, DoExit, LiquidationLoss;
  }

  /** After a surviving minute: the old intent still waits, or the new one does if it was welcome, or none. */
  lemma MinutePending(c: Config, st: ReplayState, k: nat, b: Bar, x: Choice, fs: seq<Funding>)
    requires c.mode.Paper? && Minute(c, st, k, b, x, fs).Some?
    ensures
      var asked, after := WhenAsked(c, st, b, x, fs), Minute(c, st, k, b, x, fs).value.eng;
      && after == asked.(pending := after.pending)
      && after.pending == (if x.intent.Some? && Welcome(c, asked, x.intent.value) then x.intent else asked.pending)
      && asked.pending == (if st.eng.pending.Some? && b.openMs > st.eng.pending.value.decidedMs then None else st.eng.pending)
      && (st.eng.pending.Some? ==> !x.exitAtOpen)
  {
    hide EngineMinute, SettleMinute, BookAll, Welcome, Accepts;
    var s := SettleMinute(c, st.eng, fs, b.openMs);
    SettleKeepsPending(c, st.eng, fs, b.openMs);
    EnginePending(c, s, b, x.exitAtOpen);
    if x.intent.Some? { RequestIff(c, WhenAsked(c, st, b, x, fs), x.intent.value); }
  }

  /** Main theorem on what waits. After minute `n` the engine is pending on `i` if and only if some minute gave it `i` and no
      bar since has opened after its decision. */
  lemma {:induction false} PendingIff(c: Config, equity: real, bars: seq<Bar>, xs: seq<Choice>, fs: seq<Funding>, n: nat, i: EntryIntent)
    requires c.mode.Paper? && n <= |bars| && n <= |xs| && Run(c, equity, bars, xs, fs, n).Some?
    ensures Run(c, equity, bars, xs, fs, n).value.eng.pending == Some(i)
       <==> exists k: nat :: k < n && Gave(c, equity, bars, xs, fs, k, i) && NotYetDue(bars, k, n, i)
    decreases n
  {
    hide Minute, Welcome, WhenAsked;
    if n > 0 {
      var m := n - 1;
      var st := Run(c, equity, bars, xs, fs, m).value;
      PendingIff(c, equity, bars, xs, fs, m, i);
      MinutePending(c, st, m, bars[m], xs[m], fs);
      var asked := WhenAsked(c, st, bars[m], xs[m], fs);
      if Run(c, equity, bars, xs, fs, n).value.eng.pending == Some(i) {
        if asked.pending == Some(i) {
          var k: nat :| k < m && Gave(c, equity, bars, xs, fs, k, i) && NotYetDue(bars, k, m, i);
          assert NotYetDue(bars, k, n, i);
        } else {
          assert Gave(c, equity, bars, xs, fs, m, i) && NotYetDue(bars, m, n, i);
        }
      } else {
        forall k: nat | k < n && Gave(c, equity, bars, xs, fs, k, i) ensures !NotYetDue(bars, k, n, i) {
          if k < m && NotYetDue(bars, k, n, i) {
            assert NotYetDue(bars, k, m, i) && bars[m].openMs <= i.decidedMs;
            WelcomeIsFree(c, asked, xs[m].intent);
          }
        }
      }
    }
  }

  /** A minute ends the replay exactly if the engine raises, the strategy's intent is malformed though the engine could take one,
      or something is pending after an exit at the open. */
  lemma MinuteFailsIff(c: Config, st: ReplayState, k: nat, b: Bar, x: Choice, fs: seq<Funding>)
    ensures
      var asked := WhenAsked(c, st, b, x, fs);
      Minute(c, st, k, b, x, fs).None?
      <==> EngineMinute(c, SettleMinute(c, st.eng, fs, b.openMs), b, x.exitAtOpen).raised
           || (x.intent.Some? && Available(c, asked, x.intent.value) && !InOrder(x.intent.value))
           || (x.exitAtOpen && (asked.pending.Some? || (x.intent.Some? && Welcome(c, asked, x.intent.value))))
  {
    hide EngineMinute, SettleMinute, BookAll, Welcome, Available, InOrder, InvalidIntent, RequestEntry;
    if x.intent.Some? { RequestIff(c, WhenAsked(c, st, b, x, fs), x.intent.value); }
  }

  lemma WelcomeIsFree(c: Config, s: EngineState, i: Option<EntryIntent>)
    ensures i.Some? && Welcome(c, s, i.value) ==> s.pending.None?
  {}

  // ---------------------------------------------------------------- the bar that takes it up

  /** The bar fills the intent: its open is still clear of the stop, sizing accepts it, and the first order passes. */
  predicate FillsAt(c: Config, s: EngineState, i: EntryIntent, open: real, quote: real, sl: real) {
    && Alive(i.direction, open, sl) && Usable(Asked(c, s, i, quote, sl))
    && EntryRules.Opens(c, Asked(c, s, i, quote, sl).value.chunks)
  }

  /** The record has an entry in minute `k`: still open, or booked as the last trade. */
  predicate OnRecord(before: ReplayState, after: ReplayState, k: nat) {
    if after.held.Some? then after.held.value.bar == k && after.trades == before.trades
    else |after.trades| == |before.trades| + 1 && after.trades[..|before.trades|] == before.trades
         && after.trades[|before.trades|].entry.bar == k && after.trades[|before.trades|].bar == k
  }

  /** The events of the entry decide what is booked. */
  lemma EntryIsBooked(c: Config, capital: real, st: ReplayState, bars: seq<Bar>, x: Choice, fs: seq<Funding>, k: nat)
    requires FixedCapital(c, capital) && k < |bars| && StateRight(c, capital, st, bars, fs, k)
    requires st.eng.pending.Some? && st.eng.position.None? && bars[k].openMs > st.eng.pending.value.decidedMs
    requires Minute(c, st, k, bars[k], x, fs).Some?
    ensures
      var b, after := bars[k], Minute(c, st, k, bars[k], x, fs).value;
      var entered := ExecuteEntry(c, st.eng, b.open, b.openMs, NO_ENTRY, NO_EXIT);
      && !x.exitAtOpen && !entered.raised
      && (if Accounting.HasEntry(entered.events) then OnRecord(st, after, k) else after.held.None? && after.trades == st.trades)
  {
    hide ExecuteEntry, JudgeBar, EnteredAs, TradesRight, BookAll, RequestEntry, HeldRight, InvalidIntent;
    var b := bars[k];
    var m, bk0 := MarkBarOf(b), Book(st.trades, None, None);
    EnginePending(c, st.eng, b, x.exitAtOpen);
    var entered := ExecuteEntry(c, st.eng, b.open, b.openMs, NO_ENTRY, NO_EXIT);
    var o := EntryShape(c, st.eng, m.open, m.openMs);
    var step := OnBar(c, st.eng, m, NO_SCRIPT);
    if o.None? {
      FlatBar(c, entered.st, m);
      assert entered.events + [] == entered.events;
      BookQuiet(bk0, step.events, k, b, capital);
    } else {
      OpenedIsBooked(c, capital, st.eng, o.value, entered, b, k, st.trades);
    }
  }

  lemma OpenedIsBooked(c: Config, capital: real, s: EngineState, o: Opening, entered: Step, b: Bar, k: nat, trades: seq<Trade>)
    requires FixedCapital(c, capital) && EnteredAs(c, s, o, entered, b.openMs) && !entered.raised
    ensures Accounting.HasEntry(entered.events)
    ensures
      var step := Then(entered, JudgeBar(c, entered.st, MarkBarOf(b), NO_EXIT));
      var bk := BookAll(Book(trades, None, None), step.events, k, b, capital);
      OnRecord(ReplayState(s, trades, None), ReplayState(step.st, bk.trades, bk.held), k)
  {
    hide JudgeBar, BookAll, ClosedRight, Judged1, Holding, OpeningOf, ExitRef, EstimateKnown;
    var m, bk0 := MarkBarOf(b), Book(trades, None, None);
    var e := FilledEvent(o, b.openMs);
    var h := OpenTrade(k, b.openMs, b.open, capital, e);
    OpeningHasEntry(c, s, o, b.openMs);
    BookOpening(c, s, bk0, o, b.openMs, k, b, capital);
    var bk1 := Book(trades, Some(h), Some(o.p.liqPrice));
    if entered.st.position.Some? {
      var judged := JudgeBar(c, o.st, m, NO_EXIT);
      JudgeBarIsRight(c, o.st, b);
      JudgedNotRaised(c, o.st, judged, m.closeMs);
      BookAppend(bk0, OpeningOf(c, s, o, b.openMs), judged.events, k, b, capital);
      Placebo.JudgedBook(c, o.st, h, judged, m.closeMs, k, b, capital, trades);
    } else {
      var closed :| entered.events == OpeningOf(c, s, o, b.openMs) + [closed] && ClosedRight(c, o.st, closed, entered.st)
                    && GateClosed(closed, b.openMs);
      FlatBar(c, entered.st, m);
      assert Then(entered, JudgeBar(c, entered.st, m, NO_EXIT)).events == OpeningOf(c, s, o, b.openMs) + [closed];
      BookAppend(bk0, OpeningOf(c, s, o, b.openMs), [closed], k, b, capital);
      BookSingle(bk1, closed, k, b, capital);
    }
  }

  lemma OpeningHasEntry(c: Config, s: EngineState, o: Opening, ts: int)
    ensures forall more: seq<Event> :: Accounting.HasEntry(OpeningOf(c, s, o, ts) + more)
    ensures Accounting.HasEntry(OpeningOf(c, s, o, ts))
  {
    var e := FilledEvent(o, ts);
    assert e in OpeningEvents(c, s, o.p, o.fills, false, ts);
    assert e in OpeningOf(c, s, o, ts);
    forall more: seq<Event> ensures Accounting.HasEntry(OpeningOf(c, s, o, ts) + more) {
      assert e in OpeningOf(c, s, o, ts) + more;
    }
  }

  /** Main theorem on what is taken up. The next bar that opens after the decision takes the intent up, and the record has an
      entry in that minute if and only if the bar fills it. */
  lemma TakenUpIff(c: Config, capital: real, equity: real, bars: seq<Bar>, xs: seq<Choice>, fs: seq<Funding>, n: nat, i: EntryIntent)
    returns (quote: real, sl: real)
    requires FixedCapital(c, capital) && n < |bars| && n < |xs| && Run(c, equity, bars, xs, fs, n + 1).Some?
    requires Run(c, equity, bars, xs, fs, n).value.eng.pending == Some(i) && bars[n].openMs > i.decidedMs
    ensures
      var before, after := Run(c, equity, bars, xs, fs, n).value, Run(c, equity, bars, xs, fs, n + 1).value;
      && QuotedAt(c, i.direction, bars[n].open, quote) && StopIs(i, quote, sl)
      && before.held.None?
      && (if FillsAt(c, before.eng, i, bars[n].open, quote, sl) then OnRecord(before, after, n)
          else after.held.None? && after.trades == before.trades)
  {
    hide Minute, ExecuteEntry, QuotedAt, StopIs, SentAs, HeldRight, TradesRight, OnRecord;
    var before := Run(c, equity, bars, xs, fs, n).value;
    RunIsRight(c, capital, equity, bars, xs, fs, n);
    PendingIsFlat(c, equity, bars, xs, fs, n);
    EntryIsBooked(c, capital, before, bars, xs[n], fs, n);
    quote, sl := PaperEntry(c, before.eng, bars[n].open, bars[n].openMs);
  }

  /** Nothing is pending beside a position. */
  lemma {:induction false} PendingIsFlat(c: Config, equity: real, bars: seq<Bar>, xs: seq<Choice>, fs: seq<Funding>, n: nat)
    requires c.mode.Paper? && n <= |bars| && n <= |xs| && Run(c, equity, bars, xs, fs, n).Some?
    ensures var s := Run(c, equity, bars, xs, fs, n).value.eng; s.pending.None? || s.position.None?
    decreases n
  {
    hide Minute, WhenAsked;
    if n > 0 {
      var st := Run(c, equity, bars, xs, fs, n - 1).value;
      PendingIsFlat(c, equity, bars, xs, fs, n - 1);
      MinutePending(c, st, n - 1, bars[n - 1], xs[n - 1], fs);
      AskedIsFlat(c, st, n - 1, bars[n - 1], xs[n - 1], fs);
    }
  }

  lemma AskedIsFlat(c: Config, st: ReplayState, k: nat, b: Bar, x: Choice, fs: seq<Funding>)
    requires c.mode.Paper? && Minute(c, st, k, b, x, fs).Some? && (st.eng.pending.None? || st.eng.position.None?)
    ensures var asked := WhenAsked(c, st, b, x, fs); asked.pending.None? || asked.position.None?
  {
    hide ExecuteEntry, BookAll, SettleDue, DoExit, LiquidationLoss;
    var s := SettleMinute(c, st.eng, fs, b.openMs);
    SettleKeepsPending(c, st.eng, fs, b.openMs);
    EnginePending(c, s, b, x.exitAtOpen);
    if s.pending.Some? && b.openMs <= s.pending.value.decidedMs { FlatBar(c, s, MarkBarOf(b)); }
  }

  // ---------------------------------------------------------------- the exit at the open

  /** What the strategy's exit does to a position held: a gap through the liquidation price liquidates it, and anything else
      closes it there. */
  lemma TimeExitIs(c: Config, s: EngineState, open: real, ts: int)
    requires Holding(c, s)
    ensures
      var p, step := s.position.value, ExitAtOpen(c, s, open, ts);
      && !step.raised && step.st.position.None? && |step.events| == 1
      && if Gain(p.direction, p.liqPrice, open) <= 0.0 then
           step.events[0].PositionClosed? && step.events[0].reason.Liquidation? && step.events[0].exitPrice.None?
         else ClosedAt(c, p, s.wallet, step, step.events[0], TimeExit, open)
  {
    hide DoExit, Multiple, ClosedAt, LiquidationLoss;
    ExitClosesAt(c, s, TimeExit, open, ts);
    NothingFirst(s, DoExit(c, s, TimeExit, open, ts, NO_EXIT));
  }

  // ---------------------------------------------------------------- a replay with a trade

  ghost function Fixed(): Config {
    W.Demo(1.0).(sizingCapital := Some(100.0), liqFeeOnLiqPrice := true)
  }

  function Still(minute: int, price: real): Replay.Bar {
    Replay.Bar.Bar(minute * MINUTE_MS, price, price, price, price)
  }

  const BARS := [Still(0, 100.0), Still(1, 100.0), Still(2, 110.0)]

  /** Ask after the first minute, leave at the open of the third. */
  const CHOICES := [Choice(false, Some(W.ASK)), Choice(false, None), Choice(true, None)]

  const HELD: Position := W.OPENED.(openedMs := MINUTE_MS)

  const HELD_ENGINE := EngineState(100.0, Some(HELD), None, [], None, None, None)

  const FILLED := EntryFilled(MINUTE_MS, Long, 1.0, 100.0, 1, 50.0, 0.0, [W.CONTRACT], 0.0, false)

  lemma EntryOfTheDay()
    ensures ExecuteEntry(Fixed(), EngineState(100.0, None, Some(W.ASK), [], None, None, None), 100.0, MINUTE_MS, NO_ENTRY, NO_EXIT)
         == Step(HELD_ENGINE, [WalletResynced(MINUTE_MS, 100.0, 100.0), FILLED], false)
  {
    hide EntrySent, Vwap, FillQty, FillCommission, Quote;
    W.QuoteIsMark(1.0);
    W.OneFill();
    SameSenders();
    assert (50.0 - 100.0) / 100.0 < 0.0;
    assert 50.0 / 100.0 > 0.0;
  }

  lemma SameSenders()
    ensures Quote(Fixed(), Buy, 100.0) == Quote(W.Demo(1.0), Buy, 100.0)
    ensures EntrySent(Fixed(), Long, [1.0], 100.0, NO_ENTRY) == EntrySent(W.Demo(1.0), Long, [1.0], 100.0, NO_ENTRY)
  {
    var c, d := Fixed(), W.Demo(1.0);
    assert GoodPrefix([1.0], c.rules) == GoodPrefix([1.0], d.rules);
    var one := [1.0][..GoodPrefix([1.0], c.rules)];
    assert one == [] || one == [1.0];
    assert one != [] ==> one[1..] == [];
  }

  lemma ExitOfTheDay()
    ensures
      var step := ExitAtOpen(Fixed(), HELD_ENGINE, 110.0, 2 * MINUTE_MS);
      && !step.raised && step.st.position.None? && step.st.pending.None? && |step.events| == 1
      && step.events[0].PositionClosed? && step.events[0].reason.TimeExit? && step.events[0].walletAfter == 110.0
      && step.st.wallet == 110.0
  {
    hide DoExit;
    var c := Fixed();
    assert Multiple(1.0, c.rules.marketStep) by { assert 1.0 / 1.0 == 1.0; }
    ExitClosesAt(c, HELD_ENGINE, TimeExit, 110.0, 2 * MINUTE_MS);
    NothingFirst(HELD_ENGINE, DoExit(c, HELD_ENGINE, TimeExit, 110.0, 2 * MINUTE_MS, NO_EXIT));
    ExitAtWhole();
  }

  /** A price of whole ticks within one tick above 110 is 110. */
  lemma ExitAtWhole()
    ensures forall price: real :: Multiple(price, 1.0) && Slipped(Fixed(), Long, 110.0, price) ==> price == 110.0
  {
    forall price: real | Multiple(price, 1.0) && Slipped(Fixed(), Long, 110.0, price) ensures price == 110.0 {
      assert 110.0 * (1.0 - 0.0) == 110.0;
      assert price / 1.0 == price;
      assert price == price.Floor as real;
    }
  }

  /** A replay that emits a trade: entered at the second bar's open, left at the third's. */
  lemma TradeOfTheDay()
    ensures FixedCapital(Fixed(), 100.0) && Minutes(BARS)
    ensures Run(Fixed(), 100.0, BARS, CHOICES, [], 3).Some?
    ensures
      var st := Run(Fixed(), 100.0, BARS, CHOICES, [], 3).value;
      && |st.trades| == 1 && st.held.None? && st.eng.wallet == 110.0
      && st.trades[0].entry.bar == 1 && st.trades[0].entry.filled == FILLED && st.trades[0].bar == 2
      && st.trades[0].closed.PositionClosed? && st.trades[0].closed.reason.TimeExit? && st.trades[0].closed.walletAfter == 110.0
  {
    hide EngineMinute, ExitAtOpen;
    FirstMinute();
    SecondMinute();
    ThirdMinute();
    assert Run(Fixed(), 100.0, BARS, CHOICES, [], 1) == Minute(Fixed(), Begin(100.0), 0, BARS[0], CHOICES[0], []);
    assert Run(Fixed(), 100.0, BARS, CHOICES, [], 2) == Minute(Fixed(), ASKED, 1, BARS[1], CHOICES[1], []);
    assert Run(Fixed(), 100.0, BARS, CHOICES, [], 3) == Minute(Fixed(), ENTERED, 2, BARS[2], CHOICES[2], []);
  }

  const ASKED := ReplayState(EngineState(100.0, None, Some(W.ASK), [], None, None, None), [], None)

  const ENTERED := ReplayState(HELD_ENGINE, [], Some(OpenTrade(1, MINUTE_MS, 100.0, 100.0, FILLED)))

  lemma FirstMinute()
    ensures Minute(Fixed(), Begin(100.0), 0, BARS[0], CHOICES[0], []) == Some(ASKED)
  {
    FlatBar(Fixed(), Begin(100.0).eng, MarkBarOf(BARS[0]));
  }

  lemma SecondMinute()
    ensures Minute(Fixed(), ASKED, 1, BARS[1], CHOICES[1], []) == Some(ENTERED)
  {
    hide ExecuteEntry, Judge, DoExit;
    EntryOfTheDay();
    var c, b := Fixed(), MarkBarOf(BARS[1]);
    var entered := Step(HELD_ENGINE, [WalletResynced(MINUTE_MS, 100.0, 100.0), FILLED], false);
    assert Judge(c, HELD_ENGINE, b.closeMs, 100.0, 100.0, 50.0, 0.0, 100.0, NO_EXIT) == Step(HELD_ENGINE, [], false) by {
      EvaluateNothing(c);
    }
    assert entered.events + [] == entered.events;
    assert OnBar(c, ASKED.eng, b, NO_SCRIPT) == entered;
    assert entered.events == [entered.events[0]] + [FILLED];
    var bk := Book([], None, None);
    BookAppend(bk, [entered.events[0]], [FILLED], 1, BARS[1], 100.0);
    BookQuiet(bk, [entered.events[0]], 1, BARS[1], 100.0);
    BookSingle(bk, FILLED, 1, BARS[1], 100.0);
  }

  lemma EvaluateNothing(c: Config)
    ensures Judge(c, HELD_ENGINE, 2 * MINUTE_MS - 1, 100.0, 100.0, 50.0, 0.0, 100.0, NO_EXIT) == Step(HELD_ENGINE, [], false)
  {
    hide DoExit;
  }

  lemma ThirdMinute()
    ensures Minute(Fixed(), ENTERED, 2, BARS[2], CHOICES[2], []).Some?
    ensures
      var st := Minute(Fixed(), ENTERED, 2, BARS[2], CHOICES[2], []).value;
      && |st.trades| == 1 && st.held.None? && st.eng.wallet == 110.0
      && st.trades[0].entry.bar == 1 && st.trades[0].entry.filled == FILLED && st.trades[0].bar == 2
      && st.trades[0].closed.PositionClosed? && st.trades[0].closed.reason.TimeExit? && st.trades[0].closed.walletAfter == 110.0
  {
    hide ExitAtOpen;
    ExitOfTheDay();
    var step := ExitAtOpen(Fixed(), HELD_ENGINE, 110.0, 2 * MINUTE_MS);
    assert step.events == [step.events[0]];
    BookSingle(Book([], ENTERED.held, Some(0.0)), step.events[0], 2, BARS[2], 100.0);
  }
}
