/** Confirmations of the command bot (notify/bot.py): a stop or close asks first, asks again on silence, and lapses.
    Messages, button presses and ticks come in any order and at any times. */
module Confirmations {
  import opened Types

  datatype Command = StartCmd | PauseCmd | StopCmd | CloseCmd | StatusCmd | PositionCmd | ProfitCmd | HelpCmd

  datatype Pending = Pending(command: Command, nonce: nat, issued: int, resends: nat)

  datatype PendingAlert = PendingAlert(nonce: nat, issued: int, resends: nat)

  /** Alerts wait in the order their nonces came in. */
  datatype BotState = BotState(pending: Option<Pending>, alerts: seq<PendingAlert>)

  datatype Setup = Setup(owners: set<int>, startedMs: int, interval: int, resends: nat, ttl: int, importantResend: bool)

  datatype Button = ConfirmButton(nonce: nat, yes: bool) | AckButton(nonce: nat) | UnknownButton

  /** `None` as text is no known command; `hasPosition` is `None` when the controller failed to answer. */
  datatype Input =
    | Message(user: int, isPrivate: bool, dateMs: Option<int>, command: Option<Command>, now: int, newNonce: nat, hasPosition: Option<bool>)
    | Press(user: int, button: Button, now: int)
    | Tick(now: int)
    | Alert(important: bool, now: int, newNonce: nat)

  /** What the bot does to the outside. */
  datatype Act =
    | Asked(p: Pending)
    | AskedAgain(nonce: nat, resend: nat)
    | Lapsed(nonce: nat)
    | Paused(p: Pending, user: int)
    | ClosedAll(p: Pending, user: int, now: int)
    | Immediate(command: Command, user: int)
    | AlertSent(nonce: nat, resend: nat)
    | Replied

  function Deadline(u: Setup, p: Pending): int {
    p.issued + (u.resends + 1) * u.interval
  }

  function NextAsk(u: Setup, p: Pending): int {
    p.issued + (p.resends + 1) * u.interval
  }

  // ---------------------------------------------------------------- one input

  datatype Outcome = Outcome(st: BotState, acts: seq<Act>)

  function RequestConfirm(st: BotState, i: Input): Outcome
    requires i.Message? && i.command.Some?
  {
    if st.pending.Some? then Outcome(st, [Replied])
    else if i.command.value.CloseCmd? && i.hasPosition == Some(false) then Outcome(st, [Replied])
    else var p := Pending(i.command.value, i.newNonce, i.now, 0); Outcome(st.(pending := Some(p)), [Asked(p)])
  }

  function OnMessage(u: Setup, st: BotState, i: Input): Outcome
    requires i.Message?
  {
    if i.user !in u.owners || !i.isPrivate || i.dateMs.None? || i.dateMs.value < u.startedMs then Outcome(st, [])
    else if i.command.None? then Outcome(st, [Replied])
    else if i.command.value.StopCmd? || i.command.value.CloseCmd? then RequestConfirm(st, i)
    else Outcome(st, [Immediate(i.command.value, i.user)])
  }

  function DropAlert(alerts: seq<PendingAlert>, nonce: nat): seq<PendingAlert> {
    if alerts == [] then []
    else if alerts[0].nonce == nonce then alerts[1..] else [alerts[0]] + DropAlert(alerts[1..], nonce)
  }

  /** A repeated nonce takes the place of the alert that had it. */
  function PutAlert(alerts: seq<PendingAlert>, a: PendingAlert): seq<PendingAlert> {
    if alerts == [] then [a]
    else if alerts[0].nonce == a.nonce then [a] + alerts[1..] else [alerts[0]] + PutAlert(alerts[1..], a)
  }

  function Execute(st: BotState, p: Pending, user: int, now: int): Outcome {
    Outcome(st, (if p.command.StopCmd? then [Paused(p, user)] else []) + [ClosedAll(p, user, now)])
  }

  function OnConfirm(u: Setup, st: BotState, user: int, nonce: nat, yes: bool, now: int): Outcome {
    if st.pending.None? || st.pending.value.nonce != nonce then Outcome(st, [Replied])
    else
      var p, gone := st.pending.value, st.(pending := None);
      if now >= Deadline(u, p) || now - p.issued > u.ttl then Outcome(gone, [Lapsed(p.nonce)])
      else if !yes then Outcome(gone, [Lapsed(p.nonce)])
      else Execute(gone, p, user, now)
  }

  function OnPress(u: Setup, st: BotState, i: Input): Outcome
    requires i.Press?
  {
    if i.user !in u.owners then Outcome(st, [Replied])
    else
      match i.button
      case AckButton(nonce) => Outcome(st.(alerts := DropAlert(st.alerts, nonce)), [Replied])
      case ConfirmButton(nonce, yes) => OnConfirm(u, st, i.user, nonce, yes, i.now)
      case UnknownButton => Outcome(st, [Replied])
  }

  function TickConfirm(u: Setup, st: BotState, now: int): Outcome {
    if st.pending.None? || now < NextAsk(u, st.pending.value) then Outcome(st, [])
    else
      var p := st.pending.value;
      if p.resends < u.resends then
        Outcome(st.(pending := Some(p.(resends := p.resends + 1))), [AskedAgain(p.nonce, p.resends + 1)])
      else Outcome(st.(pending := None), [Lapsed(p.nonce)])
  }

  function TickAlerts(u: Setup, alerts: seq<PendingAlert>, now: int): (seq<PendingAlert>, seq<Act>) {
    if alerts == [] then ([], [])
    else
      var a := alerts[0];
      var (rest, acts) := TickAlerts(u, alerts[1..], now);
      if now < a.issued + (a.resends + 1) * u.interval then ([a] + rest, acts)
      else if a.resends < u.resends then ([a.(resends := a.resends + 1)] + rest, [AlertSent(a.nonce, a.resends + 1)] + acts)
      else (rest, acts)
  }

  function OnTick(u: Setup, st: BotState, now: int): Outcome {
    var c := TickConfirm(u, st, now);
    var (alerts, acts) := TickAlerts(u, st.alerts, now);
    Outcome(c.st.(alerts := alerts), c.acts + acts)
  }

  function OnAlert(u: Setup, st: BotState, i: Input): Outcome
    requires i.Alert?
  {
    if !(i.important && u.importantResend) then Outcome(st, [Replied])
    else Outcome(st.(alerts := PutAlert(st.alerts, PendingAlert(i.newNonce, i.now, 0))), [AlertSent(i.newNonce, 0)])
  }

  function Handle(u: Setup, st: BotState, i: Input): Outcome {
    match i
    case Message(_, _, _, _, _, _, _) => OnMessage(u, st, i)
    case Press(_, _, _) => OnPress(u, st, i)
    case Tick(now) => OnTick(u, st, now)
    case Alert(_, _, _) => OnAlert(u, st, i)
  }

  // ---------------------------------------------------------------- runs

  /** State, everything done so far, and the nonces given out. */
  datatype History = History(st: BotState, acts: seq<Act>, used: set<nat>)

  const FIRST := History(BotState(None, []), [], {})

  function NoncesOf(i: Input): set<nat> {
    if i.Message? || i.Alert? then {i.newNonce} else {}
  }

  function Run(u: Setup, ins: seq<Input>): History
    decreases |ins|
  {
    if ins == [] then FIRST
    else
      var h := Run(u, ins[..|ins| - 1]);
      var i := ins[|ins| - 1];
      var o := Handle(u, h.st, i);
      History(o.st, h.acts + o.acts, h.used + NoncesOf(i))
  }

  /** The generator never repeats a nonce. */
  predicate Distinct(u: Setup, ins: seq<Input>)
    decreases |ins|
  {
    ins == [] || (Distinct(u, ins[..|ins| - 1]) && NoncesOf(ins[|ins| - 1]) !! Run(u, ins[..|ins| - 1]).used)
  }

  function Closings(acts: seq<Act>, nonce: nat): nat {
    if acts == [] then 0 else (if acts[0].ClosedAll? && acts[0].p.nonce == nonce then 1 else 0) + Closings(acts[1..], nonce)
  }

  function Resendings(acts: seq<Act>, nonce: nat): nat {
    if acts == [] then 0 else (if acts[0].AskedAgain? && acts[0].nonce == nonce then 1 else 0) + Resendings(acts[1..], nonce)
  }

  lemma {:induction false} CountsAppend(xs: seq<Act>, ys: seq<Act>, nonce: nat)
    ensures Closings(xs + ys, nonce) == Closings(xs, nonce) + Closings(ys, nonce)
    ensures Resendings(xs + ys, nonce) == Resendings(xs, nonce) + Resendings(ys, nonce)
  {
    if xs == [] {
      assert xs + ys == ys;
    } else {
      assert (xs + ys)[1..] == xs[1..] + ys;
      CountsAppend(xs[1..], ys, nonce);
    }
  }

  lemma OneCount(a: Act, nonce: nat)
    ensures Closings([a], nonce) == (if a.ClosedAll? && a.p.nonce == nonce then 1 else 0)
    ensures Resendings([a], nonce) == (if a.AskedAgain? && a.nonce == nonce then 1 else 0)
  {
    assert [a][1..] == [];
  }

  lemma {:induction false} NoCounts(acts: seq<Act>, nonce: nat)
    requires forall i :: 0 <= i < |acts| ==> !acts[i].ClosedAll? && !acts[i].AskedAgain?
    ensures Closings(acts, nonce) == 0 && Resendings(acts, nonce) == 0
  {
    if acts != [] { NoCounts(acts[1..], nonce); }
  }

  // ---------------------------------------------------------------- what one input adds

  /** Closings and resendings of one nonce that an input adds, read off the state. */
  function ClosesNow(u: Setup, st: BotState, i: Input): Option<nat> {
    if i.Press? && i.user in u.owners && i.button.ConfirmButton? && st.pending.Some? && i.button.nonce == st.pending.value.nonce
       && i.button.yes && i.now < Deadline(u, st.pending.value) && i.now - st.pending.value.issued <= u.ttl
    then Some(st.pending.value.nonce) else None
  }

  function AsksAgainNow(u: Setup, st: BotState, i: Input): Option<nat> {
    if i.Tick? && st.pending.Some? && i.now >= NextAsk(u, st.pending.value) && st.pending.value.resends < u.resends
    then Some(st.pending.value.nonce) else None
  }

  lemma {:induction false} AlertsOnlySend(u: Setup, alerts: seq<PendingAlert>, now: int)
    ensures forall i :: 0 <= i < |TickAlerts(u, alerts, now).1| ==> TickAlerts(u, alerts, now).1[i].AlertSent?
  {
    if alerts != [] { AlertsOnlySend(u, alerts[1..], now); }
  }

  /** An input closes, or asks again, exactly when its guard says so. */
  lemma ActsCounted(u: Setup, st: BotState, i: Input, nonce: nat)
    ensures Closings(Handle(u, st, i).acts, nonce) == (if ClosesNow(u, st, i) == Some(nonce) then 1 else 0)
    ensures Resendings(Handle(u, st, i).acts, nonce) == (if AsksAgainNow(u, st, i) == Some(nonce) then 1 else 0)
  {
    var o := Handle(u, st, i);
    match i
    case Message(_, _, _, _, _, _, _) => NoCounts(o.acts, nonce);
    case Alert(_, _, _) => NoCounts(o.acts, nonce);
    case Tick(now) =>
      var c, alerts := TickConfirm(u, st, now), TickAlerts(u, st.alerts, now).1;
      AlertsOnlySend(u, st.alerts, now);
      NoCounts(alerts, nonce);
      CountsAppend(c.acts, alerts, nonce);
      if c.acts != [] { OneCount(c.acts[0], nonce); assert c.acts == [c.acts[0]]; }
    case Press(user, button, now) =>
      if ClosesNow(u, st, i).Some? {
        var p := st.pending.value;
        var first := if p.command.StopCmd? then [Paused(p, user)] else [];
        NoCounts(first, nonce);
        OneCount(ClosedAll(p, user, now), nonce);
        CountsAppend(first, [ClosedAll(p, user, now)], nonce);
      } else {
        NoCounts(o.acts, nonce);
      }
  }

  // ---------------------------------------------------------------- once, and only while open

  ghost predicate Tracked(u: Setup, h: History, nonce: nat) {
    && Closings(h.acts, nonce) <= 1 && Resendings(h.acts, nonce) <= u.resends
    && (nonce !in h.used ==> Closings(h.acts, nonce) == 0 && Resendings(h.acts, nonce) == 0)
    && (h.st.pending.Some? && h.st.pending.value.nonce == nonce ==>
          Closings(h.acts, nonce) == 0 && Resendings(h.acts, nonce) == h.st.pending.value.resends)
    && (h.st.pending.Some? ==> h.st.pending.value.nonce in h.used)
  }

  lemma {:induction false} RunTracked(u: Setup, ins: seq<Input>, nonce: nat)
    requires Distinct(u, ins)
    ensures Tracked(u, Run(u, ins), nonce)
    decreases |ins|
  {
    if ins != [] {
      var n := |ins| - 1;
      var h, i := Run(u, ins[..n]), ins[n];
      RunTracked(u, ins[..n], nonce);
      ActsCounted(u, h.st, i, nonce);
      CountsAppend(h.acts, Handle(u, h.st, i).acts, nonce);
      hide Closings, Resendings, TickAlerts, Distinct;
    }
  }

  /** The question that was asked, as it stands after `p.resends` repetitions. */
  function Question(p: Pending): Act {
    Asked(p.(resends := 0))
  }

  /** A closing answers an owner's question that was still open at that moment; a stop pauses entries right before. */
  predicate Authorised(u: Setup, acts: seq<Act>, k: nat)
    requires k < |acts| && acts[k].ClosedAll?
  {
    var c := acts[k];
    && c.user in u.owners && Question(c.p) in acts[..k]
    && c.now < Deadline(u, c.p) && c.now - c.p.issued <= u.ttl
    && (c.p.command.StopCmd? || c.p.command.CloseCmd?)
    && (c.p.command.StopCmd? ==> k > 0 && acts[k - 1] == Paused(c.p, c.user))
  }

  predicate AllAuthorised(u: Setup, acts: seq<Act>) {
    && (forall k :: 0 <= k < |acts| && acts[k].ClosedAll? ==> Authorised(u, acts, k))
    && (forall k :: 0 <= k < |acts| && acts[k].Paused? ==> acts[k].p.command.StopCmd?)
  }

  predicate PendingAsked(st: BotState, acts: seq<Act>) {
    st.pending.Some? ==>
      Question(st.pending.value) in acts && (st.pending.value.command.StopCmd? || st.pending.value.command.CloseCmd?)
  }

  lemma MoreActs(u: Setup, acts: seq<Act>, more: seq<Act>)
    requires AllAuthorised(u, acts) && forall i :: 0 <= i < |more| ==> !more[i].ClosedAll? && !more[i].Paused?
    ensures AllAuthorised(u, acts + more)
  {
    var all := acts + more;
    forall k | 0 <= k < |all| && all[k].ClosedAll? ensures Authorised(u, all, k) {
      assert all[k] == acts[k] && all[..k] == acts[..k];
      assert Authorised(u, acts, k);
    }
    forall k | 0 <= k < |all| && all[k].Paused? ensures all[k].p.command.StopCmd? {
      assert all[k] == acts[k];
    }
  }

  lemma ClosingAuthorised(u: Setup, acts: seq<Act>, p: Pending, user: int, now: int)
    requires AllAuthorised(u, acts) && Question(p) in acts && user in u.owners
    requires now < Deadline(u, p) && now - p.issued <= u.ttl && (p.command.StopCmd? || p.command.CloseCmd?)
    ensures AllAuthorised(u, acts + Execute(BotState(None, []), p, user, now).acts)
  {
    var first := if p.command.StopCmd? then [Paused(p, user)] else [];
    var all := acts + (first + [ClosedAll(p, user, now)]);
    var last := |all| - 1;
    assert all[last] == ClosedAll(p, user, now) && all[..last] == acts + first;
    forall k | 0 <= k < |all| && all[k].ClosedAll? ensures Authorised(u, all, k) {
      if k < |acts| {
        assert all[k] == acts[k] && all[..k] == acts[..k] && Authorised(u, acts, k);
      } else {
        assert k == last;
        if p.command.StopCmd? { assert all[last - 1] == first[0]; }
      }
    }
    forall k | 0 <= k < |all| && all[k].Paused? ensures all[k].p.command.StopCmd? {
      if k < |acts| { assert all[k] == acts[k]; }
    }
  }

  lemma StepAuthorised(u: Setup, st: BotState, acts: seq<Act>, i: Input)
    requires AllAuthorised(u, acts) && PendingAsked(st, acts)
    ensures AllAuthorised(u, acts + Handle(u, st, i).acts) && PendingAsked(Handle(u, st, i).st, acts + Handle(u, st, i).acts)
  {
    var o := Handle(u, st, i);
    if ClosesNow(u, st, i).Some? {
      ClosingAuthorised(u, acts, st.pending.value, i.user, i.now);
    } else {
      if i.Tick? { AlertsOnlySend(u, st.alerts, i.now); }
      MoreActs(u, acts, o.acts);
      if i.Message? && o.st.pending != st.pending {
        assert o.acts[0] in acts + o.acts;
      }
    }
  }

  lemma {:induction false} RunAuthorised(u: Setup, ins: seq<Input>)
    ensures AllAuthorised(u, Run(u, ins).acts) && PendingAsked(Run(u, ins).st, Run(u, ins).acts)
    decreases |ins|
  {
    hide AllAuthorised, PendingAsked, Handle;
    if ins == [] {
      NothingDone(u);
    } else {
      var h := Run(u, ins[..|ins| - 1]);
      RunAuthorised(u, ins[..|ins| - 1]);
      StepAuthorised(u, h.st, h.acts, ins[|ins| - 1]);
    }
  }

  lemma NothingDone(u: Setup)
    ensures AllAuthorised(u, []) && PendingAsked(BotState(None, []), [])
  {}

  /** Main theorem. Whatever messages, presses and ticks arrive, in any order and however late: each question is
      repeated at most `resends` times and leads to at most one closing; and every closing is an owner's yes to a
      question that had been asked, strictly before its deadline. Entries are paused with a stop and only then. */
  lemma ClosingsAreConfirmed(u: Setup, ins: seq<Input>, nonce: nat)
    requires Distinct(u, ins)
    ensures var acts := Run(u, ins).acts;
      && Closings(acts, nonce) <= 1 && Resendings(acts, nonce) <= u.resends && AllAuthorised(u, acts)
  {
    hide Run, Distinct, AllAuthorised;
    RunTracked(u, ins, nonce);
    RunAuthorised(u, ins);
  }

  // ---------------------------------------------------------------- any nonces

  function Questions(acts: seq<Act>, nonce: nat): nat {
    if acts == [] then 0 else (if acts[0].Asked? && acts[0].p.nonce == nonce then 1 else 0) + Questions(acts[1..], nonce)
  }

  lemma {:induction false} QuestionsAppend(xs: seq<Act>, ys: seq<Act>, nonce: nat)
    ensures Questions(xs + ys, nonce) == Questions(xs, nonce) + Questions(ys, nonce)
  {
    if xs == [] {
      assert xs + ys == ys;
    } else {
      assert (xs + ys)[1..] == xs[1..] + ys;
      QuestionsAppend(xs[1..], ys, nonce);
    }
  }

  lemma {:induction false} NoQuestions(acts: seq<Act>, nonce: nat)
    requires forall i :: 0 <= i < |acts| ==> !acts[i].Asked?
    ensures Questions(acts, nonce) == 0
  {
    if acts != [] { NoQuestions(acts[1..], nonce); }
  }

  /** Only a message that opens a question asks one. */
  lemma AsksCounted(u: Setup, st: BotState, i: Input, nonce: nat)
    ensures
      var o := Handle(u, st, i);
      Questions(o.acts, nonce) == if i.Message? && st.pending.None? && o.st.pending.Some? && o.st.pending.value.nonce == nonce then 1 else 0
    ensures Handle(u, st, i).st.pending.Some? && Handle(u, st, i).st.pending != st.pending ==>
      (i.Message? && st.pending.None? && Handle(u, st, i).st.pending.value.resends == 0)
      || (i.Tick? && AsksAgainNow(u, st, i).Some? && st.pending.Some?
          && Handle(u, st, i).st.pending == Some(st.pending.value.(resends := st.pending.value.resends + 1)))
  {
    var o := Handle(u, st, i);
    if i.Tick? { AlertsOnlySend(u, st.alerts, i.now); }
    if i.Message? && st.pending.None? && o.st.pending.Some? {
      assert o.acts[1..] == [];
    } else {
      NoQuestions(o.acts, nonce);
    }
  }

  /** Each question under a nonce allows one closing and `resends` repetitions; an open one has its closing left. */
  ghost predicate Budgeted(u: Setup, h: History, nonce: nat) {
    var q := Questions(h.acts, nonce);
    if h.st.pending.Some? && h.st.pending.value.nonce == nonce
    then Closings(h.acts, nonce) + 1 <= q && Resendings(h.acts, nonce) <= (q - 1) * u.resends + h.st.pending.value.resends
         && h.st.pending.value.resends <= u.resends
    else Closings(h.acts, nonce) <= q && Resendings(h.acts, nonce) <= q * u.resends
  }

  lemma OneMore(q: int, r: nat)
    ensures (q - 1) * r + r == q * r
    ensures (q + 1) * r == q * r + r
  {}

  lemma {:induction false} RunBudgeted(u: Setup, ins: seq<Input>, nonce: nat)
    ensures Budgeted(u, Run(u, ins), nonce)
    decreases |ins|
  {
    hide Closings, Resendings, Questions, TickAlerts;
    if ins == [] {
      NoQuestions([], nonce);
      NoCounts([], nonce);
    } else {
      var n := |ins| - 1;
      var h, i := Run(u, ins[..n]), ins[n];
      RunBudgeted(u, ins[..n], nonce);
      ActsCounted(u, h.st, i, nonce);
      AsksCounted(u, h.st, i, nonce);
      CountsAppend(h.acts, Handle(u, h.st, i).acts, nonce);
      QuestionsAppend(h.acts, Handle(u, h.st, i).acts, nonce);
      var q := Questions(h.acts, nonce);
      OneMore(q, u.resends);
    }
  }

  /** Main theorem without a word about nonces. In every run the closings under a nonce are at most the questions asked
      under it, and each of them is repeated at most `resends` times. */
  lemma ClosingsPerQuestion(u: Setup, ins: seq<Input>, nonce: nat)
    ensures var acts := Run(u, ins).acts;
      Closings(acts, nonce) <= Questions(acts, nonce) && Resendings(acts, nonce) <= Questions(acts, nonce) * u.resends
  {
    RunBudgeted(u, ins, nonce);
    var q := Questions(Run(u, ins).acts, nonce);
    OneMore(q, u.resends);
  }

  /** Distinct nonces are needed for at most one closing per nonce: with a repeated one the button of a lapsed question answers a new one. */
  lemma RepeatedNonceAnswersAnother(u: Setup, owner: int, t: int)
    requires owner in u.owners && u.startedMs <= t && u.interval > 0 && u.ttl >= 0
    ensures
      var ask := (c: Command, now: int) => Message(owner, true, Some(t), Some(c), now, 7, Some(true));
      var ins := [ask(StopCmd, t), Press(owner, ConfirmButton(7, true), t), ask(CloseCmd, t), Press(owner, ConfirmButton(7, true), t)];
      !Distinct(u, ins) && Closings(Run(u, ins).acts, 7) == 2
  {
    var ask := (c: Command, now: int) => Message(owner, true, Some(t), Some(c), now, 7, Some(true));
    var ins := [ask(StopCmd, t), Press(owner, ConfirmButton(7, true), t), ask(CloseCmd, t), Press(owner, ConfirmButton(7, true), t)];
    var p, q := Pending(StopCmd, 7, t, 0), Pending(CloseCmd, 7, t, 0);
    var empty := BotState(None, []);
    assert ins[..0] == [] && ins[..1][..0] == [] && ins[..2][..1] == ins[..1] && ins[..3][..2] == ins[..2] && ins[..4] == ins && ins[..3] == ins[..|ins| - 1];
    OpenNow(u, p);
    OpenNow(u, q);
    assert Run(u, ins[..1]) == History(BotState(Some(p), []), [Asked(p)], {7});
    assert Run(u, ins[..2]) == History(empty, [Asked(p)] + [Paused(p, owner), ClosedAll(p, owner, t)], {7});
    assert Run(u, ins[..3]).st == BotState(Some(q), []);
    ActsCounted(u, empty, ins[0], 7);
    ActsCounted(u, BotState(Some(p), []), ins[1], 7);
    ActsCounted(u, empty, ins[2], 7);
    ActsCounted(u, BotState(Some(q), []), ins[3], 7);
    CountsAppend([], Handle(u, empty, ins[0]).acts, 7);
    CountsAppend(Run(u, ins[..1]).acts, Handle(u, BotState(Some(p), []), ins[1]).acts, 7);
    CountsAppend(Run(u, ins[..2]).acts, Handle(u, empty, ins[2]).acts, 7);
    CountsAppend(Run(u, ins[..3]).acts, Handle(u, BotState(Some(q), []), ins[3]).acts, 7);
  }

  lemma OpenNow(u: Setup, p: Pending)
    requires u.interval > 0
    ensures p.issued < Deadline(u, p)
  {
    assert (u.resends + 1) * u.interval > 0;
  }

  // ---------------------------------------------------------------- which messages ask, and what a yes does

  /** An owner's private message, not older than the bot, with nothing open: a stop, whether or not there is a position, or
      a close unless there is known to be none. */
  predicate Opens(u: Setup, st: BotState, i: Input) {
    && i.Message? && i.user in u.owners && i.isPrivate && i.dateMs.Some? && i.dateMs.value >= u.startedMs && st.pending.None?
    && (i.command == Some(StopCmd) || (i.command == Some(CloseCmd) && i.hasPosition != Some(false)))
  }

  function Opened(i: Input): Pending
    requires i.Message? && i.command.Some?
  {
    Pending(i.command.value, i.newNonce, i.now, 0)
  }

  /** An owner's private message that is not older than the bot. */
  predicate Heard(u: Setup, i: Input) {
    i.Message? && i.user in u.owners && i.isPrivate && i.dateMs.Some? && i.dateMs.value >= u.startedMs
  }

  /** A message opens a question exactly then, and changes nothing otherwise: unheard it is not even answered, and any other
      command that is heard is carried out at once. */
  lemma AsksIff(u: Setup, st: BotState, i: Input)
    requires i.Message?
    ensures
      var o := Handle(u, st, i);
      if Opens(u, st, i) then o == Outcome(st.(pending := Some(Opened(i))), [Asked(Opened(i))])
      else
        && o.st == st
        && (o.acts == [] <==> !Heard(u, i))
        && (Heard(u, i) ==>
              if i.command.Some? && !i.command.value.StopCmd? && !i.command.value.CloseCmd?
              then o.acts == [Immediate(i.command.value, i.user)] else o.acts == [Replied])
  {}

  /** Whatever an owner answers, and however late, ends the question; it is carried out only on a yes in time. */
  lemma AnswerEnds(u: Setup, st: BotState, i: Input)
    requires i.Press? && i.user in u.owners && i.button.ConfirmButton? && st.pending.Some? && i.button.nonce == st.pending.value.nonce
    ensures
      var o, p := Handle(u, st, i), st.pending.value;
      && o.st == st.(pending := None)
      && (if Answers(u, p, i) then o.acts == (if p.command.StopCmd? then [Paused(p, i.user)] else []) + [ClosedAll(p, i.user, i.now)]
          else o.acts == [Lapsed(p.nonce)])
  {}

  /** An input that leaves question `p` open: no owner answers it, and no tick comes at or after its deadline. */
  predicate Quiet(u: Setup, p: Pending, i: Input) {
    && !(i.Press? && i.user in u.owners && i.button.ConfirmButton? && i.button.nonce == p.nonce)
    && (i.Tick? ==> i.now < Deadline(u, p))
  }

  predicate StillOpen(u: Setup, st: BotState, p: Pending) {
    st.pending.Some? && st.pending.value.(resends := p.resends) == p && st.pending.value.resends <= u.resends
  }

  lemma QuietKeepsOpen(u: Setup, st: BotState, p: Pending, i: Input)
    requires StillOpen(u, st, p) && Quiet(u, p, i)
    ensures StillOpen(u, Handle(u, st, i).st, p)
  {
    if i.Tick? && st.pending.value.resends == u.resends {
      assert NextAsk(u, st.pending.value) == Deadline(u, p);
    }
  }

  lemma RunLast(u: Setup, ins: seq<Input>, i: Input)
    ensures Run(u, ins + [i]).st == Handle(u, Run(u, ins).st, i).st
    ensures Run(u, ins + [i]).acts == Run(u, ins).acts + Handle(u, Run(u, ins).st, i).acts
  {
    var all := ins + [i];
    assert all[..|all| - 1] == ins;
  }

  lemma {:induction false} StaysOpen(u: Setup, before: seq<Input>, mid: seq<Input>, p: Pending)
    requires StillOpen(u, Run(u, before).st, p)
    requires forall k :: 0 <= k < |mid| ==> Quiet(u, p, mid[k])
    ensures StillOpen(u, Run(u, before + mid).st, p)
    decreases |mid|
  {
    hide Run, Handle, StillOpen, Quiet;
    if mid == [] {
      assert before + mid == before;
    } else {
      var n := |mid| - 1;
      assert before + mid == (before + mid[..n]) + [mid[n]];
      StaysOpen(u, before, mid[..n], p);
      RunLast(u, before + mid[..n], mid[n]);
      QuietKeepsOpen(u, Run(u, before + mid[..n]).st, p, mid[n]);
    }
  }

  /** An owner's yes to question `p`, before its deadline and within its lifetime. */
  predicate Answers(u: Setup, p: Pending, i: Input) {
    && i.Press? && i.user in u.owners && i.button == ConfirmButton(p.nonce, true)
    && i.now < Deadline(u, p) && i.now - p.issued <= u.ttl
  }

  /** Main theorem on the yes. After a message that opens a question and any quiet inputs, an owner's yes in time closes;
      after a stop it pauses entries first; and the question is gone. */
  lemma YesCloses(u: Setup, before: seq<Input>, ask: Input, mid: seq<Input>, yes: Input)
    requires ask.Message? && Opens(u, Run(u, before).st, ask)
    requires forall k :: 0 <= k < |mid| ==> Quiet(u, Opened(ask), mid[k])
    requires Answers(u, Opened(ask), yes)
    ensures
      var h, after := Run(u, before + [ask] + mid), Run(u, before + [ask] + mid + [yes]);
      && after.st.pending.None? && h.st.pending.Some?
      && var q := h.st.pending.value;
         && Question(q) == Asked(Opened(ask))
         && after.acts == h.acts + (if ask.command == Some(StopCmd) then [Paused(q, yes.user)] else []) + [ClosedAll(q, yes.user, yes.now)]
  {
    hide Run;
    var p := Opened(ask);
    RunLast(u, before, ask);
    AsksIff(u, Run(u, before).st, ask);
    StaysOpen(u, before + [ask], mid, p);
    RunLast(u, before + [ask] + mid, yes);
    YesNow(u, Run(u, before + [ask] + mid).st, p, yes);
    Joined(Run(u, before + [ask] + mid).acts, if p.command.StopCmd? then [Paused(Run(u, before + [ask] + mid).st.pending.value, yes.user)] else [],
           [ClosedAll(Run(u, before + [ask] + mid).st.pending.value, yes.user, yes.now)]);
  }

  lemma Joined(a: seq<Act>, b: seq<Act>, c: seq<Act>)
    ensures a + (b + c) == a + b + c
  {}

  lemma YesNow(u: Setup, st: BotState, p: Pending, i: Input)
    requires StillOpen(u, st, p) && Answers(u, p, i)
    ensures
      var q := st.pending.value;
      Handle(u, st, i) == Outcome(st.(pending := None), (if p.command.StopCmd? then [Paused(q, i.user)] else []) + [ClosedAll(q, i.user, i.now)])
  {
    assert Deadline(u, st.pending.value) == Deadline(u, p);
  }

  // ---------------------------------------------------------------- alerts

  function Find(alerts: seq<PendingAlert>, nonce: nat): Option<PendingAlert> {
    if alerts == [] then None else if alerts[0].nonce == nonce then Some(alerts[0]) else Find(alerts[1..], nonce)
  }

  predicate Unique(alerts: seq<PendingAlert>) {
    alerts == [] || (Find(alerts[1..], alerts[0].nonce).None? && Unique(alerts[1..]))
  }

  function SentOf(acts: seq<Act>, nonce: nat): nat {
    if acts == [] then 0 else (if acts[0].AlertSent? && acts[0].nonce == nonce then 1 else 0) + SentOf(acts[1..], nonce)
  }

  predicate Raises(u: Setup, i: Input, nonce: nat) {
    i.Alert? && i.important && u.importantResend && i.newNonce == nonce
  }

  predicate Acks(u: Setup, i: Input, nonce: nat) {
    i.Press? && i.user in u.owners && i.button == AckButton(nonce)
  }

  /** The next repetition is due. */
  predicate Due(u: Setup, a: Option<PendingAlert>, i: Input) {
    i.Tick? && a.Some? && i.now - a.value.issued >= (a.value.resends + 1) * u.interval
  }

  /** What becomes of the alert with one nonce: raised anew, acknowledged, repeated or given up when due. */
  function AlertAfter(u: Setup, a: Option<PendingAlert>, i: Input, nonce: nat): Option<PendingAlert> {
    if Raises(u, i, nonce) then Some(PendingAlert(nonce, i.now, 0))
    else if Acks(u, i, nonce) then None
    else if Due(u, a, i) then (if a.value.resends < u.resends then Some(a.value.(resends := a.value.resends + 1)) else None)
    else a
  }

  function SendsNow(u: Setup, a: Option<PendingAlert>, i: Input, nonce: nat): nat {
    if Raises(u, i, nonce) || (Due(u, a, i) && a.value.resends < u.resends) then 1 else 0
  }

  lemma {:induction false} PutFinds(alerts: seq<PendingAlert>, a: PendingAlert, nonce: nat)
    requires Unique(alerts)
    ensures Find(PutAlert(alerts, a), nonce) == (if a.nonce == nonce then Some(a) else Find(alerts, nonce))
    ensures Unique(PutAlert(alerts, a))
  {
    if alerts == [] {
      assert [a][1..] == [];
    } else if alerts[0].nonce == a.nonce {
      assert ([a] + alerts[1..])[1..] == alerts[1..];
    } else {
      PutFinds(alerts[1..], a, nonce);
      PutFinds(alerts[1..], a, alerts[0].nonce);
      assert ([alerts[0]] + PutAlert(alerts[1..], a))[1..] == PutAlert(alerts[1..], a);
    }
  }

  lemma {:induction false} DropFinds(alerts: seq<PendingAlert>, gone: nat, nonce: nat)
    requires Unique(alerts)
    ensures Find(DropAlert(alerts, gone), nonce) == (if gone == nonce then None else Find(alerts, nonce))
    ensures Unique(DropAlert(alerts, gone))
  {
    if alerts != [] {
      if alerts[0].nonce != gone {
        DropFinds(alerts[1..], gone, nonce);
        DropFinds(alerts[1..], gone, alerts[0].nonce);
        assert ([alerts[0]] + DropAlert(alerts[1..], gone))[1..] == DropAlert(alerts[1..], gone);
      }
    }
  }

  lemma {:induction false} TickFinds(u: Setup, alerts: seq<PendingAlert>, now: int, nonce: nat)
    requires Unique(alerts)
    ensures
      var (after, acts) := TickAlerts(u, alerts, now);
      && Find(after, nonce) == AlertAfter(u, Find(alerts, nonce), Tick(now), nonce) && Unique(after)
      && SentOf(acts, nonce) == SendsNow(u, Find(alerts, nonce), Tick(now), nonce)
  {
    if alerts != [] {
      var a := alerts[0];
      var (rest, acts) := TickAlerts(u, alerts[1..], now);
      TickFinds(u, alerts[1..], now, nonce);
      TickFinds(u, alerts[1..], now, a.nonce);
      var again := a.(resends := a.resends + 1);
      assert ([a] + rest)[1..] == rest && ([again] + rest)[1..] == rest;
      assert ([AlertSent(a.nonce, a.resends + 1)] + acts)[1..] == acts;
    }
  }

  lemma {:induction false} SentAppend(xs: seq<Act>, ys: seq<Act>, nonce: nat)
    ensures SentOf(xs + ys, nonce) == SentOf(xs, nonce) + SentOf(ys, nonce)
  {
    if xs == [] {
      assert xs + ys == ys;
    } else {
      assert (xs + ys)[1..] == xs[1..] + ys;
      SentAppend(xs[1..], ys, nonce);
    }
  }

  lemma {:induction false} NoneSent(acts: seq<Act>, nonce: nat)
    requires forall k :: 0 <= k < |acts| ==> !acts[k].AlertSent?
    ensures SentOf(acts, nonce) == 0
  {
    if acts != [] { NoneSent(acts[1..], nonce); }
  }

  /** The list of alerts behaves as one alert per nonce would: an acknowledgement or a lapse of one leaves the others be. */
  lemma AlertIff(u: Setup, st: BotState, i: Input, nonce: nat)
    requires Unique(st.alerts)
    ensures
      var o, a := Handle(u, st, i), Find(st.alerts, nonce);
      Find(o.st.alerts, nonce) == AlertAfter(u, a, i, nonce) && SentOf(o.acts, nonce) == SendsNow(u, a, i, nonce) && Unique(o.st.alerts)
  {
    hide TickAlerts, Unique, Find;
    var o := Handle(u, st, i);
    match i
    case Message(_, _, _, _, _, _, _) => NoneSent(o.acts, nonce);
    case Tick(now) =>
      var c := TickConfirm(u, st, now);
      TickFinds(u, st.alerts, now, nonce);
      NoneSent(c.acts, nonce);
      SentAppend(c.acts, TickAlerts(u, st.alerts, now).1, nonce);
    case Press(user, button, now) =>
      NoneSent(o.acts, nonce);
      if user in u.owners && button.AckButton? { DropFinds(st.alerts, button.nonce, nonce); }
    case Alert(important, now, n) =>
      if important && u.importantResend {
        PutFinds(st.alerts, PendingAlert(n, now, 0), nonce);
        assert o.acts[1..] == [];
      } else {
        NoneSent(o.acts, nonce);
      }
  }

  function Raised(u: Setup, ins: seq<Input>, nonce: nat): nat
    decreases |ins|
  {
    if ins == [] then 0 else Raised(u, ins[..|ins| - 1], nonce) + (if Raises(u, ins[|ins| - 1], nonce) then 1 else 0)
  }

  /** The alert of a nonce is sent once when raised and at most `resends` times more; one that waits has been repeated as
      often as it says, and only the rest of its repetitions are left. */
  ghost predicate AlertBudget(u: Setup, h: History, raised: nat, nonce: nat) {
    var a, sent := Find(h.st.alerts, nonce), SentOf(h.acts, nonce);
    && Unique(h.st.alerts)
    && sent <= raised * (u.resends + 1)
    && (a.Some? ==> a.value.resends <= u.resends && raised >= 1 && sent <= (raised - 1) * (u.resends + 1) + a.value.resends + 1)
  }

  /** Main theorem on alerts: over every run, whatever nonces are given out. */
  lemma {:induction false} AlertsAreBounded(u: Setup, ins: seq<Input>, nonce: nat)
    ensures AlertBudget(u, Run(u, ins), Raised(u, ins, nonce), nonce)
    decreases |ins|
  {
    hide Handle, Find, SentOf, Unique;
    if ins == [] {
      NoAlerts(nonce);
    } else {
      var n := |ins| - 1;
      var h, i, raised := Run(u, ins[..n]), ins[n], Raised(u, ins[..n], nonce);
      AlertsAreBounded(u, ins[..n], nonce);
      AlertIff(u, h.st, i, nonce);
      SentAppend(h.acts, Handle(u, h.st, i).acts, nonce);
      OneMore(raised, u.resends + 1);
    }
  }

  lemma NoAlerts(nonce: nat)
    ensures Find([], nonce).None? && SentOf([], nonce) == 0 && Unique([])
  {}

  // ---------------------------------------------------------------- the object

  class CommandBot {
    const setup: Setup
    var pending: Option<Pending>
    var alerts: seq<PendingAlert>

    function State(): BotState
      reads this
    {
      BotState(pending, alerts)
    }

    constructor (setup: Setup)
      ensures this.setup == setup && State() == BotState(None, [])
    {
      this.setup, pending, alerts := setup, None, [];
    }

    method OnMessage(i: Input) returns (acts: seq<Act>)
      requires i.Message?
      modifies this`pending
      ensures Outcome(State(), acts) == Handle(setup, old(State()), i)
    {
      acts := [];
      if i.user !in setup.owners { return; }
      if !i.isPrivate { return; }
      if i.dateMs.None? || i.dateMs.value < setup.startedMs { return; }
      if i.command.None? { return [Replied]; }
      if !(i.command.value.StopCmd? || i.command.value.CloseCmd?) { return [Immediate(i.command.value, i.user)]; }
      if pending.Some? { return [Replied]; }
      if i.command.value.CloseCmd? && i.hasPosition == Some(false) { return [Replied]; }
      var p := Pending(i.command.value, i.newNonce, i.now, 0);
      pending := Some(p);
      acts := [Asked(p)];
    }

    method OnCallback(i: Input) returns (acts: seq<Act>)
      requires i.Press?
      modifies this
      ensures Outcome(State(), acts) == Handle(setup, old(State()), i)
    {
      if i.user !in setup.owners { return [Replied]; }
      match i.button {
        case AckButton(nonce) =>
          alerts := DropAlert(alerts, nonce);
          return [Replied];
        case UnknownButton => return [Replied];
        case ConfirmButton(nonce, yes) =>
          if pending.None? || nonce != pending.value.nonce { return [Replied]; }
          var p := pending.value;
          pending := None;
          if i.now >= Deadline(setup, p) { return [Lapsed(p.nonce)]; }
          if i.now - p.issued > setup.ttl { return [Lapsed(p.nonce)]; }
          if !yes { return [Lapsed(p.nonce)]; }
          acts := [];
          if p.command.StopCmd? { acts := acts + [Paused(p, i.user)]; }
          acts := acts + [ClosedAll(p, i.user, i.now)];
      }
    }

    method OnTick(now: int) returns (acts: seq<Act>)
      modifies this
      ensures Outcome(State(), acts) == Handle(setup, old(State()), Tick(now))
    {
      acts := [];
      if pending.Some? && now >= NextAsk(setup, pending.value) {
        var p := pending.value;
        if p.resends < setup.resends {
          pending := Some(p.(resends := p.resends + 1));
          acts := [AskedAgain(p.nonce, p.resends + 1)];
        } else {
          pending := None;
          acts := [Lapsed(p.nonce)];
        }
      }
      var sent := TickAlertLoop(now);
      acts := acts + sent;
    }

    method TickAlertLoop(now: int) returns (sent: seq<Act>)
      modifies this`alerts
      ensures (alerts, sent) == TickAlerts(setup, old(alerts), now)
    {
      var left: seq<PendingAlert> := [];
      sent := [];
      ghost var whole := TickAlerts(setup, alerts, now);
      assert alerts[0..] == alerts && left + whole.0 == whole.0 && sent + whole.1 == whole.1;
      for i := 0 to |alerts|
        invariant alerts == old(alerts)
        invariant var (rest, acts) := TickAlerts(setup, alerts[i..], now);
          (left + rest, sent + acts) == TickAlerts(setup, old(alerts), now)
      {
        var a := alerts[i];
        assert alerts[i..] == [a] + alerts[i + 1..];
        var (rest, acts) := TickAlerts(setup, alerts[i + 1..], now);
        if now < a.issued + (a.resends + 1) * setup.interval {
          assert left + ([a] + rest) == (left + [a]) + rest;
          left := left + [a];
        } else if a.resends < setup.resends {
          var again := a.(resends := a.resends + 1);
          assert left + ([again] + rest) == (left + [again]) + rest;
          assert sent + ([AlertSent(a.nonce, a.resends + 1)] + acts) == (sent + [AlertSent(a.nonce, a.resends + 1)]) + acts;
          left := left + [again];
          sent := sent + [AlertSent(a.nonce, a.resends + 1)];
        }
      }
      assert left + [] == left && sent + [] == sent;
      alerts := left;
    }

    method RaiseAlert(i: Input) returns (acts: seq<Act>)
      requires i.Alert?
      modifies this`alerts
      ensures Outcome(State(), acts) == Handle(setup, old(State()), i)
    {
      if !(i.important && setup.importantResend) { return [Replied]; }
      alerts := PutAlert(alerts, PendingAlert(i.newNonce, i.now, 0));
      acts := [AlertSent(i.newNonce, 0)];
    }
  }
}
