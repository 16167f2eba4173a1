/** Conservation of the wallet over whole runs, both modes: every public call in any order, with any answers of the
    exchange, calls that raise included (paper/engine.py:356-361, 394-409, 494-504, 607-695). */
module WalletRuns {
  import opened Types
  import opened Steps
  import opened EngineTypes
  import opened EngineModel
  import opened Accounting
  import opened PaperRuns
  import opened RowLedger

  /** `told` are the events handed over, `lost` those of calls that raised, `all` both in the order they happened. */
  datatype Played = Played(st: EngineState, told: seq<Event>, lost: seq<Event>, all: seq<Event>)

  function Play(c: Config, s: EngineState, ks: seq<Call>): Played
    decreases |ks|
  {
    if ks == [] then Played(s, [], [], [])
    else
      var first := DoCall(c, s, ks[0]);
      var rest := Play(c, first.st, ks[1..]);
      Played(rest.st, if first.raised then rest.told else first.events + rest.told,
             if first.raised then first.events + rest.lost else rest.lost, first.events + rest.all)
  }

  /** `vanish` belongs to LIVE. */
  predicate Plays(c: Config, ks: seq<Call>) {
    forall i :: 0 <= i < |ks| && ks[i].CallVanish? ==> c.mode.Live?
  }

  /** Commissions of entries, adopted and synchronised quantities included. */
  function EntryFees(evs: seq<Event>): real {
    if evs == [] then 0.0
    else
      (match evs[0]
       case EntryFilled(_, _, _, _, _, _, _, _, comm, _) => comm
       case PositionSynced(_, _, _, _, _, extra) => extra
       case _ => 0.0) + EntryFees(evs[1..])
  }

  /** Profit of full and partial closes, liquidations included, less the exit commissions. */
  function Realised(evs: seq<Event>): real {
    if evs == [] then 0.0
    else
      (match evs[0]
       case PositionClosed(_, _, _, _, _, _, _, pnl, comm, _, _) => pnl - comm
       case PositionReduced(_, _, _, _, _, _, _, _, pnl, comm, _) => pnl - comm
       case _ => 0.0) + Realised(evs[1..])
  }

  function Resynced(evs: seq<Event>): real {
    if evs == [] then 0.0
    else (match evs[0] case WalletResynced(_, previous, wallet) => wallet - previous case _ => 0.0) + Resynced(evs[1..])
  }

  /** What the events say the wallet gained. */
  function Net(evs: seq<Event>): real {
    Realised(evs) + Resynced(evs) - EntryFees(evs) - FundingPaid(evs)
  }

  lemma {:induction false} WalletByKind(w: real, evs: seq<Event>)
    ensures WalletAfter(w, evs) == w + Net(evs)
    decreases |evs|
  {
    if evs != [] { WalletByKind(w + WalletDelta(evs[0]), evs[1..]); }
  }

  lemma NetAppend(a: seq<Event>, b: seq<Event>)
    ensures Net(a + b) == Net(a) + Net(b)
  {
    WalletByKind(0.0, a + b);
    WalletByKind(0.0, a);
    WalletByKind(WalletAfter(0.0, a), b);
    WalletAppend(0.0, a, b);
  }

  lemma NetNothing()
    ensures Net([]) == 0.0
  {}

  /** The ledger that shows a position. */
  ghost function LedgerOf(p: Option<Position>): (l: Option<LedgerPos>)
    ensures forall mode :: Shows(mode, l, p)
  {
    if p.None? then None
    else
      var v := p.value;
      Some(LedgerPos(v.direction, v.qty, v.entryPrice, v.leverage, v.sl, v.tp, v.entryCommission, v.fundingPaid, v.openedMs, v.trail, 0.0))
  }

  /** Told or lost, every wallet printed on an event is the true one at that moment. */
  lemma {:induction false} RunAccounted(c: Config, s: EngineState, ks: seq<Call>)
    requires OneWay(s) && Plays(c, ks)
    ensures var end := Play(c, s, ks);
      && WalletAfter(s.wallet, end.all) == end.st.wallet && StampsOk(s.wallet, end.all)
      && Net(end.all) == Net(end.told) + Net(end.lost)
    decreases |ks|
  {
    hide DoCall, Shows, OneWay, Net;
    if ks != [] {
      var first := DoCall(c, s, ks[0]);
      var rest := Play(c, first.st, ks[1..]);
      CallAccounted(c, LedgerOf(s.position), s, ks[0]);
      CallKeepsOneWay(c, s, ks[0]);
      RunAccounted(c, first.st, ks[1..]);
      WalletAppend(s.wallet, first.events, rest.all);
      NetAppend(first.events, rest.all);
      NetAppend(first.events, rest.told);
      NetAppend(first.events, rest.lost);
    } else {
      NetNothing();
    }
  }

  // ---------------------------------------------------------------- calls that raise

  /** What a call takes from the wallet unseen if it raises, worked out from the state before it and the exchange's
      answers. On a held position: the funding its tick settles and the fee on quantity the exchange holds in excess. On a
      flat engine: what the entry costs once it has booked, and the fee of the exit that raises after it. */
  function UnseenCost(c: Config, s: EngineState, k: Call): real {
    match k
    case CallTick(t, x) =>
      if !GridOk(c, t) then 0.0
      else if s.position.Some? then DueOnTick(s, t) + ExcessFee(c, s.position.value, t.mark, x.exit)
      else if !Books(c, s, t.mark, t.ts, x.entry) then 0.0
      else s.wallet - EnteredWallet(c, EntryOnTick(c, AtEntry(c, s, t), t.ts, t.mark, x.entry, x.gateExit), t.mark, x.exit)
    case CallBar(b, x) =>
      if s.position.Some? then ExcessFee(c, s.position.value, BarRef(s.position, b), x.exit)
      else if !Books(c, s, b.open, b.openMs, x.entry) then 0.0
      else
        var entered := EntryOnTick(c, s, b.openMs, b.open, x.entry, x.gateExit);
        s.wallet - EnteredWallet(c, entered, BarRef(entered.st.position, b), x.exit)
    case CallClose(mark, _, _, x) => if s.position.Some? then ExcessFee(c, s.position.value, mark, x) else 0.0
    case _ => 0.0
  }

  /** An entry that did not get as far as booking leaves the wallet alone. */
  lemma UnbookedEntry(c: Config, s: EngineState, ts: int, mark: real, x: EntryScript, gx: ExitScript)
    requires s.position.None? && !Books(c, s, mark, ts, x)
    ensures EntryOnTick(c, s, ts, mark, x, gx).st.wallet == s.wallet && EntryOnTick(c, s, ts, mark, x, gx).st.position.None?
  {
    hide BookEntry, Quote, Vwap, CheckFill;
  }

  /** A call that raises takes exactly that cost, so it keeps the wallet if and only if the cost is zero. */
  lemma RaisedWalletIff(c: Config, s: EngineState, k: Call)
    requires OneWay(s) && DoCall(c, s, k).raised
    ensures DoCall(c, s, k).st.wallet == s.wallet - UnseenCost(c, s, k)
    ensures DoCall(c, s, k).st.wallet == s.wallet <==> UnseenCost(c, s, k) == 0.0
  {
    hide OnTick, OnBar, DoExit, ExcessFee, DueOnTick, BarRef, Books, EntryOnTick, FundingOnTick;
    match k
    case CallTick(t, x) =>
      if !GridOk(c, t) {
        OffGridTick(c, s, t, x);
      } else if s.position.Some? {
        HeldTickRaised(c, s, t, x);
      } else {
        FlatTickRaised(c, s, t, x);
        FlatFunding(c, s, t);
        BooksFrame(c, s, AtEntry(c, s, t), t.mark, t.ts, x.entry);
        if !Books(c, s, t.mark, t.ts, x.entry) { UnbookedEntry(c, AtEntry(c, s, t), t.ts, t.mark, x.entry, x.gateExit); }
      }
    case CallBar(b, x) =>
      BarRaised(c, s, b, x);
      if s.position.None? && !Books(c, s, b.open, b.openMs, x.entry) { UnbookedEntry(c, s, b.openMs, b.open, x.entry, x.gateExit); }
    case CallClose(mark, ts, reason, x) => if s.position.Some? { ExitRaisesIff(c, s, reason, mark, ts, x); }
    case _ =>
  }

  /** Such a call: long 1 with step 1, the exchange holds 1.5 at 100; closing raises after the fee on the half more. */
  lemma RaisedCloseCosts(c: Config, s: EngineState, mark: real, ts: int)
    requires c.mode.Live? && c.rules.marketStep == 1.0
    requires s.position.Some? && s.position.value.direction.Long? && s.position.value.qty == 1.0
    ensures
      var k := CallClose(mark, ts, Manual, ExitScript(Some(PositionRisk(1.5, 100.0)), Sent([], None), None));
      && DoCall(c, s, k).raised
      && DoCall(c, s, k).st.wallet == s.wallet - 50.0 * c.taker
  {
    var x := ExitScript(Some(PositionRisk(1.5, 100.0)), Sent([], None), None);
    assert 1.5 / 1.0 == 1.5 && (1.5).Floor == 1;
    ExitRaisesIff(c, s, Manual, mark, ts, x);
    assert TakerFee(c, 0.5, 100.0) == 50.0 * c.taker;
  }

  lemma FlatFunding(c: Config, s: EngineState, t: MarkTick)
    requires s.position.None?
    ensures var s1 := AtEntry(c, s, t); s1.position.None? && s1.wallet == s.wallet && s1.pending == s.pending
  {}

  // ---------------------------------------------------------------- every run

  /** The cost of every raising call of a run. */
  function Unseen(c: Config, s: EngineState, ks: seq<Call>): real
    decreases |ks|
  {
    if ks == [] then 0.0
    else
      var step := DoCall(c, s, ks[0]);
      (if step.raised then UnseenCost(c, s, ks[0]) else 0.0) + Unseen(c, step.st, ks[1..])
  }

  /** Main theorem, every run of either mode. The wallet is the start plus what the told events say (realised profit net of
      exit commissions and resynchronisations, less entry commissions and funding) less what the raising calls took
      unseen, which is what the lost events would have said. So the told events account for it exactly if that is zero. */
  lemma {:induction false} WalletConserved(c: Config, s: EngineState, ks: seq<Call>)
    requires OneWay(s) && Plays(c, ks)
    ensures var end := Play(c, s, ks);
      && end.st.wallet == s.wallet + Net(end.told) - Unseen(c, s, ks)
      && Net(end.lost) == -Unseen(c, s, ks)
      && (end.st.wallet == s.wallet + Net(end.told) <==> Unseen(c, s, ks) == 0.0)
    decreases |ks|
  {
    hide DoCall, Net, OneWay, UnseenCost;
    RunAccounted(c, s, ks);
    WalletByKind(s.wallet, Play(c, s, ks).all);
    if ks == [] {
      NetNothing();
    } else {
      var first := DoCall(c, s, ks[0]);
      CallKeepsOneWay(c, s, ks[0]);
      WalletConserved(c, first.st, ks[1..]);
      if first.raised { RaisedWalletIff(c, s, ks[0]); }
      CallAccounted(c, LedgerOf(s.position), s, ks[0]);
      WalletByKind(s.wallet, first.events);
      NetAppend(first.events, Play(c, first.st, ks[1..]).told);
      NetAppend(first.events, Play(c, first.st, ks[1..]).lost);
    }
  }

  // ---------------------------------------------------------------- PAPER

  /** In PAPER a raising call keeps the wallet. */
  lemma PaperRaisedWallet(c: Config, s: EngineState, k: Call)
    requires c.mode.Paper? && OnStep(c, s) && DoCall(c, s, k).raised
    ensures DoCall(c, s, k).st.wallet == s.wallet
  {
    hide OnTick, OnBar, Multiple, DoExit, Quote;
    match k
    case CallTick(t, x) => PaperTickIgnores(c, s, t, x); PaperTick(c, s, t);
    case CallBar(b, x) => PaperBarIgnores(c, s, b, x); PaperBar(c, s, b);
    case CallClose(mark, ts, reason, x) => if s.position.Some? { PaperExitCloses(c, s, reason, mark, ts, x); }
    case _ =>
  }

  lemma {:induction false} PaperTold(c: Config, s: EngineState, ks: seq<Call>)
    requires c.mode.Paper? && OnStep(c, s) && Plays(c, ks)
    ensures var end := Play(c, s, ks);
      WalletAfter(s.wallet, end.told) == end.st.wallet && StampsOk(s.wallet, end.told)
    decreases |ks|
  {
    hide DoCall, OnStep;
    if ks != [] {
      var first := DoCall(c, s, ks[0]);
      PaperCall(c, s, ks[0]);
      OnStepIsOneWay(c, s);
      if first.raised {
        PaperRaisedWallet(c, s, ks[0]);
      } else {
        CallAccounted(c, LedgerOf(s.position), s, ks[0]);
      }
      PaperTold(c, first.st, ks[1..]);
      WalletAppend(s.wallet, first.events, Play(c, first.st, ks[1..]).told);
    }
  }

  lemma OnStepIsOneWay(c: Config, s: EngineState)
    requires OnStep(c, s)
    ensures OneWay(s)
  {}

  /** Main theorem, PAPER. Over every run, refused requests and every other raising call included, the wallet is the
      start plus what the told events say, and every wallet printed on one of them is the true one. */
  lemma PaperWalletConserved(c: Config, s: EngineState, ks: seq<Call>)
    requires c.mode.Paper? && OnStep(c, s) && Plays(c, ks)
    ensures var end := Play(c, s, ks);
      && end.st.wallet == s.wallet - EntryFees(end.told) - FundingPaid(end.told) + Realised(end.told) + Resynced(end.told)
      && StampsOk(s.wallet, end.told)
  {
    hide DoCall;
    PaperTold(c, s, ks);
    WalletByKind(s.wallet, Play(c, s, ks).told);
  }
}
