/**
 What it costs when a process dies between a provider call and its record (deliveries/services.py): exactly
 which messages some channel then gets twice, and exactly when the notification names the wrong success.
 */
module EscalationLoss {
  import opened Prelude
  import opened Chains
  import opened Escalation
  import Receipts

  // ---- messages handed twice to a channel ------------------------------------------------------------------------

  /** Some channel was handed the message twice. */
  ghost predicate Twice(calls: seq<Call>, logical: nat) {
    exists i, j :: 0 <= i < j < |calls| && calls[i].logical == logical && calls[i] == calls[j]
  }

  /** No channel of the chain is passed over: one before a called one was called or is among the tried. */
  ghost predicate InChainOrder(chain: seq<Provider>, called: set<string>, tried: set<string>) {
    && called <= ChannelsOf(chain)
    && forall i, j :: 0 <= i < j < |chain| && InferChannel(chain[j]) in called && InferChannel(chain[i]) !in tried ==>
         InferChannel(chain[i]) in called
  }

  /** The messages in `blind` were repeated, and the calls of the message on hand are in the order of the chain. */
  ghost predicate Exact(cfg: Config, s: State) {
    && (forall l :: l in s.blind ==> Twice(s.calls, l))
    && (s.note.Some? ==>
         InChainOrder(cfg.chain, CalledOn(s.calls, s.note.value.logical), Tried(s.note.value.rows)))
  }

  lemma InOrderMore(chain: seq<Provider>, called: set<string>, more: set<string>, tried: set<string>, tried': set<string>)
    requires InChainOrder(chain, called, tried) && InChainOrder(chain, more, tried) && tried <= tried'
    ensures InChainOrder(chain, called + more, tried')
  {
    hide InferChannel, ChannelsOf;
  }

  /** A send calls the chain from its beginning. */
  lemma SendInOrder(chain: seq<Provider>, t: seq<Attempt>, tried: set<string>)
    requires IsSend(chain, t) && OneChannelEach(chain)
    ensures InChainOrder(chain, ChannelsIn(t), tried)
  {
    hide InferChannel;
    forall j | 0 <= j < |chain| && InferChannel(chain[j]) in ChannelsIn(t) ensures j < |t| {
      var k :| 0 <= k < |t| && t[k].channel == InferChannel(chain[j]);
    }
  }

  /** An escalation calls what is untried from its beginning. */
  lemma {:induction false} UntriedInOrder(chain: seq<Provider>, tried: set<string>, k: nat)
    requires AllDeclared(chain) && OneChannelEach(chain) && k <= |Untried(chain, tried)|
    ensures InChainOrder(chain, FirstChannels(Untried(chain, tried), k), tried)
  {
    if chain != [] && k > 0 {
      var c, rest := InferChannel(chain[0]), chain[1..];
      assert c == chain[0].declared.value;
      hide InferChannel;
      assert [] + Untried(rest, tried) == Untried(rest, tried);
      var n := if c in tried then k else k - 1;
      UntriedInOrder(rest, tried, n);
      var all, some := FirstChannels(Untried(chain, tried), k), FirstChannels(Untried(rest, tried), n);
      assert all == if c in tried then some else {c} + some by {
        if c !in tried {
          FirstChannelsSplit(chain[0], Untried(rest, tried), n);
        }
      }
      hide Untried, FirstChannels, InChainOrder;
      InOrderOneMore(chain, some, tried);
    }
  }

  lemma InOrderOneMore(chain: seq<Provider>, some: set<string>, tried: set<string>)
    requires chain != [] && OneChannelEach(chain) && InChainOrder(chain[1..], some, tried)
    ensures var c := InferChannel(chain[0]); InChainOrder(chain, if c in tried then some else {c} + some, tried)
  {
    hide InferChannel;
    var c, rest := InferChannel(chain[0]), chain[1..];
    var all := if c in tried then some else {c} + some;
    forall i, j | 0 <= i < j < |chain| && InferChannel(chain[j]) in all && InferChannel(chain[i]) !in tried
      ensures InferChannel(chain[i]) in all
    {
      assert chain[j] == rest[j - 1];
      if i > 0 {
        assert chain[i] == rest[i - 1];
      }
    }
    assert some <= ChannelsOf(chain);
  }

  lemma FirstChannelsSplit(p: Provider, rest: seq<Provider>, n: nat)
    requires n <= |rest|
    ensures FirstChannels([p] + rest, n + 1) == {InferChannel(p)} + FirstChannels(rest, n)
  {
    hide InferChannel;
    var all := [p] + rest;
    forall c | c in FirstChannels(rest, n) ensures c in FirstChannels(all, n + 1) {
      var i :| 0 <= i < n && InferChannel(rest[i]) == c;
      assert all[i + 1] == rest[i];
    }
    assert all[0] == p;
  }

  /** Where a called channel is untried, so is the first that an escalation calls, and it was called as well. */
  lemma FirstUntriedWasCalled(chain: seq<Provider>, called: set<string>, tried: set<string>)
    requires AllDeclared(chain) && OneChannelEach(chain) && InChainOrder(chain, called, tried) && !(called <= tried)
    ensures Untried(chain, tried) != [] && InferChannel(Untried(chain, tried)[0]) in called
  {
    var c :| c in called && c !in tried;
    assert c in ChannelsOf(chain);
    var j :| 0 <= j < |chain| && InferChannel(chain[j]) == c;
    UntriedMembers(chain, tried);
    DeclaredIsInferred(chain, chain[j]);
    assert chain[j] in Untried(chain, tried);
    var first := Untried(chain, tried)[0];
    assert first in Untried(chain, tried);
    DeclaredIsInferred(chain, first);
    UntriedInOrder(chain, tried, 1);
    hide InferChannel, Untried, InChainOrder;
    assert FirstChannels(Untried(chain, tried), 1) == {InferChannel(first)};
    var i :| 0 <= i < |chain| && chain[i] == first;
    CalledWithIt(chain, called, tried, i, j);
  }

  lemma CalledWithIt(chain: seq<Provider>, called: set<string>, tried: set<string>, i: nat, j: nat)
    requires i < |chain| && j < |chain| && InChainOrder(chain, {InferChannel(chain[i])}, tried)
    requires InChainOrder(chain, called, tried)
    requires InferChannel(chain[i]) !in tried && InferChannel(chain[j]) !in tried && InferChannel(chain[j]) in called
    ensures InferChannel(chain[i]) in called
  {
    hide InferChannel, ChannelsOf;
  }

  lemma TwiceStays(calls: seq<Call>, more: seq<Call>, logical: nat)
    requires Twice(calls, logical)
    ensures Twice(calls + more, logical)
  {
    var i, j :| 0 <= i < j < |calls| && calls[i].logical == logical && calls[i] == calls[j];
    var all := calls + more;
    assert all[i] == calls[i] && all[j] == calls[j];
  }

  lemma CalledAgain(calls: seq<Call>, logical: nat, t: seq<Attempt>)
    requires t != [] && t[0].channel in CalledOn(calls, logical)
    ensures Twice(calls + CallsOf(logical, t), logical)
  {
    var i :| 0 <= i < |calls| && calls[i].logical == logical && calls[i].channel == t[0].channel;
    var all := calls + CallsOf(logical, t);
    assert all[i] == calls[i] && all[|calls|] == Call(logical, t[0].channel);
  }

  lemma SendIsExact(cfg: Config, s: State, n: Note, send: Sending)
    requires IsChain(cfg) && HonestSend(cfg, send) && forall l :: l in s.blind ==> Twice(s.calls, l)
    requires forall i :: 0 <= i < |s.calls| ==> s.calls[i].logical != n.logical
    ensures Exact(cfg, Send(cfg, s, n, send))
    ensures var s' := Send(cfg, s, n, send);
            && s'.note.Some? && s'.note.value.logical == n.logical
            && CalledOn(s'.calls, n.logical) == if send.NotCalled? then {} else ChannelsIn(Tries(cfg.chain, send.ask))
  {
    hide InferChannel, Tries, OneChannelEach, Honest, Twice, CalledOn, Tried, CallsOf, ChannelsIn, ChannelsOf, RowsOf;
    NotCalledYet(s.calls, n.logical);
    if !send.NotCalled? {
      var t, s' := Tries(cfg.chain, send.ask), Send(cfg, s, n, send);
      TriesAreSend(cfg.chain, send.ask);
      CalledOnMore(s.calls, n.logical, t, n.logical);
      SendInOrder(cfg.chain, t, Tried(s'.note.value.rows));
      forall l | l in s'.blind ensures Twice(s'.calls, l) {
        TwiceStays(s.calls, CallsOf(n.logical, t), l);
      }
    }
  }

  /** What an escalation calls is in order, and called again if a call before it was in none of the attempts. */
  lemma EscalateCalls(cfg: Config, s: State, ask: Provider -> Answer)
    requires Exact(cfg, s) && IsChain(cfg) && Honest(cfg.chain, ask) && Paths(cfg, s) != []
    ensures var n, t := s.note.value, Tries(Paths(cfg, s), ask);
            && IsSend(Paths(cfg, s), t) && InChainOrder(cfg.chain, ChannelsIn(t), Tried(n.rows))
            && (!AllRecorded(s, n) ==> Twice(s.calls + CallsOf(n.logical, t), n.logical))
  {
    var n, t, paths := s.note.value, Tries(Paths(cfg, s), ask), Paths(cfg, s);
    PathsAreUntried(cfg, s, ask);
    ChannelsAreFirst(paths, t);
    UntriedInOrder(cfg.chain, Tried(n.rows), |t|);
    hide Tries, Untried, Tried, InferChannel, CalledOn, Twice, InChainOrder, CallsOf, FirstChannels, ChannelsIn;
    if !AllRecorded(s, n) {
      FirstUntriedWasCalled(cfg.chain, CalledOn(s.calls, n.logical), Tried(n.rows));
      CalledAgain(s.calls, n.logical, t);
    }
  }

  lemma EscalatedRows(s: State, t: seq<Attempt>, stop: Stop)
    requires s.note.Some? && t != []
    ensures var s' := EscalateTo(s, t, stop);
            && s'.note.Some? && Tried(s.note.value.rows) <= Tried(s'.note.value.rows)
            && s'.note.value.logical == s.note.value.logical
  {
    TriedOf(s.note.value.rows, t, MaxNo(s.note.value.rows));
    ResultCarries(t);
    hide ResultOf, RowsOf, Tried, MaxNo;
  }

  lemma EscalateIsExact(cfg: Config, s: State, ask: Provider -> Answer, stop: Stop)
    requires Exact(cfg, s) && IsChain(cfg) && Honest(cfg.chain, ask) && Paths(cfg, s) != []
    ensures Exact(cfg, EscalateTo(s, Tries(Paths(cfg, s), ask), stop))
  {
    var n, t := s.note.value, Tries(Paths(cfg, s), ask);
    hide Tries, InferChannel, IsChain, Honest, CalledOn, Twice, InChainOrder, CallsOf, ChannelsIn, AllRecorded, EscalateTo, Tried;
    EscalateCalls(cfg, s, ask);
    var s' := EscalateTo(s, t, stop);
    EscalatedFields(s, t, stop);
    EscalatedRows(s, t, stop);
    CalledOnMore(s.calls, n.logical, t, n.logical);
    InOrderMore(cfg.chain, CalledOn(s.calls, n.logical), ChannelsIn(t), Tried(n.rows), Tried(s'.note.value.rows));
    forall l | l in s.blind ensures Twice(s'.calls, l) {
      TwiceStays(s.calls, CallsOf(n.logical, t), l);
    }
  }

  lemma StepIsExact(cfg: Config, s: State, e: Event)
    requires Sound(cfg, s) && Exact(cfg, s) && IsChain(cfg) && HonestEvent(cfg, e)
    ensures Exact(cfg, Do(cfg, s, e))
  {
    hide IsChain, Honest, Untried, Send, NoChannelTwice, NoteSound, Tried, CalledOn, EscalateTo, FewCalls, Twice,
         InChainOrder, Tries;
    if e.Start? && s.note.None? {
      SendIsExact(cfg, s.(token := true, next := s.next + 1), Note(Receipts.Queued, "", "", s.next, []), e.send);
    } else if e.Resend? && s.note.Some? && s.token {
      SendIsExact(cfg, s.(next := s.next + 1), s.note.value.(logical := s.next, status := Receipts.Queued), e.send);
    } else if e.Escalate? && Paths(cfg, s) != [] {
      EscalateIsExact(cfg, s, e.ask, e.stop);
    }
  }

  lemma {:induction false} RunIsExact(cfg: Config, events: seq<Event>)
    requires OneChannelRun(cfg, events)
    ensures Sound(cfg, Run(cfg, events)) && Exact(cfg, Run(cfg, events))
  {
    hide Do, IsChain, HonestEvent, Sound;
    RunIsSound(cfg, events);
    if |events| > 0 {
      RunIsExact(cfg, events[..|events| - 1]);
      StepIsExact(cfg, Run(cfg, events[..|events| - 1]), events[|events| - 1]);
    }
  }

  lemma SoundMeansOnce(cfg: Config, s: State, l: nat)
    requires Sound(cfg, s) && Exact(cfg, s)
    ensures Twice(s.calls, l) <==> l in s.blind
  {
  }

  /**
   For every message of every run: some channel got it twice if and only if an escalation called a provider for it
   while a call of it was in none of its attempts.
   */
  lemma RepeatedExactly(cfg: Config, events: seq<Event>, l: nat)
    requires OneChannelRun(cfg, events)
    ensures var s := Run(cfg, events); Twice(s.calls, l) <==> l in s.blind
  {
    RunIsExact(cfg, events);
    SoundMeansOnce(cfg, Run(cfg, events), l);
  }

  // ---- the next escalation after a lost record ----------------------------------------------------------------------

  lemma EscalateBlind(cfg: Config, s: State, ask: Provider -> Answer, stop: Stop)
    requires Sound(cfg, s) && Exact(cfg, s) && IsChain(cfg) && Honest(cfg.chain, ask) && s.note.Some?
    ensures var s', l := Do(cfg, s, Escalate(ask, stop)), s.note.value.logical;
            Twice(s'.calls, l) <==> Twice(s.calls, l) || (Paths(cfg, s) != [] && !AllRecorded(s, s.note.value))
  {
    hide Sound, Exact, IsChain, Honest, AllRecorded, Twice, CallsOf;
    var s', l := Do(cfg, s, Escalate(ask, stop)), s.note.value.logical;
    SoundMeansOnce(cfg, s, l);
    StepIsSound(cfg, s, Escalate(ask, stop));
    StepIsExact(cfg, s, Escalate(ask, stop));
    SoundMeansOnce(cfg, s', l);
    hide Paths, Tries;
    if Paths(cfg, s) != [] {
      EscalatedFields(s, Tries(Paths(cfg, s), ask), stop);
    }
  }

  /** An event that sends a new message and dies after its provider call, at any of the three points. */
  predicate LosesSend(s: State, e: Event) {
    && (e.Start? || e.Resend?) && (e.send.Called? || e.send.Saved? || e.send.Cleared?)
    && (if e.Start? then s.note.None? else s.note.Some? && s.token)
  }

  lemma LostSend(cfg: Config, s: State, e: Event)
    requires Sound(cfg, s) && Exact(cfg, s) && IsChain(cfg) && HonestEvent(cfg, e) && LosesSend(s, e)
    ensures var died := Do(cfg, s, e);
            && died.note.Some? && died.note.value.logical == s.next && !IsConfirmed(died.note.value) && died.token
            && CalledOn(died.calls, s.next) == ChannelsIn(Tries(cfg.chain, e.send.ask)) && !Twice(died.calls, s.next)
            && died.note.value.rows == if e.Resend? && !e.send.Cleared? then s.note.value.rows else []
  {
    hide IsChain, Honest, Tries, NoteSound, NoChannelTwice, FewCalls, CalledOn, ChannelsIn, CallsOf, FirstOk, RowsOf, Twice;
    var died := Do(cfg, s, e);
    if e.Start? {
      SendIsExact(cfg, s.(token := true, next := s.next + 1), Note(Receipts.Queued, "", "", s.next, []), e.send);
    } else {
      SendIsExact(cfg, s.(next := s.next + 1), s.note.value.(logical := s.next, status := Receipts.Queued), e.send);
    }
    StepIsSound(cfg, s, e);
    StepIsExact(cfg, s, e);
    SoundMeansOnce(cfg, died, s.next);
    SoundMeansOnce(cfg, s, s.next);
    NewIsNotTwice(s.calls, s.next);
  }

  lemma NewIsNotTwice(calls: seq<Call>, logical: nat)
    requires forall i :: 0 <= i < |calls| ==> calls[i].logical != logical
    ensures !Twice(calls, logical)
  {
  }

  lemma UnrecordedHasPaths(cfg: Config, s: State)
    requires Exact(cfg, s) && IsChain(cfg) && s.note.Some? && s.token && !IsConfirmed(s.note.value)
    requires !AllRecorded(s, s.note.value)
    ensures Paths(cfg, s) != [] <==> cfg.escalation && AllDeclared(cfg.chain)
  {
    hide OneChannelEach, CalledOn, Tried, InChainOrder, AllDeclared;
    if AllDeclared(cfg.chain) {
      FirstUntriedWasCalled(cfg.chain, CalledOn(s.calls, s.note.value.logical), Tried(s.note.value.rows));
    }
  }

  /**
   After any run, and for a start as for a resend whose record was lost: the next escalation repeats a channel if and
   only if escalation is on, every channel can be read, and the lost send reached a channel that is in none of
   the attempts left on record.
   */
  lemma LostSendIsRepeated(cfg: Config, events: seq<Event>, e: Event, ask: Provider -> Answer, stop: Stop)
    requires OneChannelRun(cfg, events) && HonestEvent(cfg, e) && Honest(cfg.chain, ask)
    requires LosesSend(Run(cfg, events), e)
    ensures var s := Run(cfg, events);
            var died := Do(cfg, s, e);
            var s' := Do(cfg, died, Escalate(ask, stop));
            var left := if e.Resend? && !e.send.Cleared? then s.note.value.rows else [];
            && !Twice(died.calls, s.next)
            && (Twice(s'.calls, s.next) <==>
                 && cfg.escalation && AllDeclared(cfg.chain)
                 && !(ChannelsIn(Tries(cfg.chain, e.send.ask)) <= Tried(left)))
  {
    var s := Run(cfg, events);
    RunIsExact(cfg, events);
    StepIsSound(cfg, s, e);
    StepIsExact(cfg, s, e);
    LostSend(cfg, s, e);
    var died := Do(cfg, s, e);
    hide Do, Run, Sound, Exact, IsChain, HonestEvent, Honest, Twice, Tries, ChannelsIn, Tried, CalledOn, Paths, AllDeclared;
    EscalateBlind(cfg, died, ask, stop);
    if !AllRecorded(died, died.note.value) {
      UnrecordedHasPaths(cfg, died);
    }
  }

  /** So a lost start is repeated by the first escalation that calls anyone. */
  lemma LostStartIsRepeated(cfg: Config, events: seq<Event>, send: Sending, ask: Provider -> Answer, stop: Stop)
    requires OneChannelRun(cfg, events) && HonestSend(cfg, send) && Honest(cfg.chain, ask)
    requires LosesSend(Run(cfg, events), Start(send))
    ensures var s := Run(cfg, events);
            var died := Do(cfg, s, Start(send));
            var s' := Do(cfg, died, Escalate(ask, stop));
            && !Twice(died.calls, s.next)
            && (Paths(cfg, died) != [] <==> cfg.escalation && AllDeclared(cfg.chain))
            && (Twice(s'.calls, s.next) <==> Paths(cfg, died) != [])
  {
    var s, e := Run(cfg, events), Start(send);
    LostSendIsRepeated(cfg, events, e, ask, stop);
    TriesAreSend(cfg.chain, send.ask);
    TriedNothing();
    var t := Tries(cfg.chain, send.ask);
    assert t[0].channel in ChannelsIn(t);
    RunIsExact(cfg, events);
    StepIsExact(cfg, s, e);
    LostSend(cfg, s, e);
    hide Do, Run, Sound, Exact, Honest, Twice, Tries, ChannelsIn, Tried, CalledOn, Paths, AllDeclared;
    UnrecordedHasPaths(cfg, Do(cfg, s, e));
  }

  lemma FirstPathIsCalled(cfg: Config, s: State, ask: Provider -> Answer)
    requires IsChain(cfg) && Honest(cfg.chain, ask) && Paths(cfg, s) != []
    ensures !AllRecorded(Do(cfg, s, Escalate(ask, AfterCall)), s.note.value)
  {
    var n, t := s.note.value, Tries(Paths(cfg, s), ask);
    PathsAreUntried(cfg, s, ask);
    CalledOnMore(s.calls, n.logical, t, n.logical);
    assert t[0].channel in ChannelsIn(t);
    hide Paths, Tries, CalledOn, Tried, ChannelsIn, Honest, CallsOf;
  }

  /** An escalation whose record was lost: the same providers are left to try, and the next one repeats the first. */
  lemma LostEscalationIsRepeated(
      cfg: Config, events: seq<Event>, lost: Provider -> Answer, ask: Provider -> Answer, stop: Stop)
    requires OneChannelRun(cfg, events) && Honest(cfg.chain, lost) && Honest(cfg.chain, ask)
    requires Paths(cfg, Run(cfg, events)) != []
    ensures var s := Run(cfg, events);
            var died := Do(cfg, s, Escalate(lost, AfterCall));
            && Paths(cfg, died) == Paths(cfg, s)
            && Twice(Do(cfg, died, Escalate(ask, stop)).calls, s.note.value.logical)
  {
    var s, e := Run(cfg, events), Escalate(lost, AfterCall);
    RunIsExact(cfg, events);
    StepIsSound(cfg, s, e);
    StepIsExact(cfg, s, e);
    FirstPathIsCalled(cfg, s, lost);
    hide Run, Sound, Exact, IsChain, Honest, Twice, Tries, AllRecorded, Untried, CallsOf;
    EscalateBlind(cfg, Do(cfg, s, e), ask, stop);
  }

  /** No condition on the chain alone makes runs safe: two events repeat a channel. */
  lemma LostRecordRepeatsAChannel(cfg: Config, ask: Provider -> Answer)
    requires IsChain(cfg) && Honest(cfg.chain, ask) && cfg.escalation && AllDeclared(cfg.chain)
    ensures var run := Run(cfg, [Start(Called(ask)), Escalate(ask, AtEnd)]); Twice(run.calls, 0)
  {
    LostStartIsRepeated(cfg, [], Called(ask), ask, AtEnd);
    hide Do, Twice, Paths;
    TwoEvents(cfg, Start(Called(ask)), Escalate(ask, AtEnd));
  }

  lemma OneEvent(cfg: Config, e: Event)
    ensures Run(cfg, [e]) == Do(cfg, NOTHING, e)
  {
    assert [e][..0] == [];
  }

  lemma TwoEvents(cfg: Config, e: Event, f: Event)
    ensures Run(cfg, [e, f]) == Do(cfg, Do(cfg, NOTHING, e), f)
  {
    hide Do;
    OneEvent(cfg, e);
    assert [e, f][..1] == [e];
  }

  // ---- a notification and its attempts saved apart ----------------------------------------------------------------

  /** Every provider of the chain has a channel with a name. */
  ghost predicate Named(chain: seq<Provider>) {
    forall i :: 0 <= i < |chain| ==> InferChannel(chain[i]) != ""
  }

  /** Who won a send, if anyone did. */
  function WinnerOf(t: seq<Attempt>): Option<Attempt> {
    if t != [] && t[|t| - 1].ok then Some(t[|t| - 1]) else None
  }

  lemma RecordedName(n: Note, providers: seq<Provider>, t: seq<Attempt>)
    requires IsSend(providers, t)
    ensures var n', w := Recorded(n, ResultOf(t)), WinnerOf(t);
            && ResultOf(t).ok == w.Some?
            && n'.channel == (if w.Some? then w.value.channel else "")
            && n'.mid == (if w.Some? then OrEmpty(w.value.mid) else "")
  {
    FirstOkIsLast(t);
  }

  lemma WinnerIsNamed(providers: seq<Provider>, t: seq<Attempt>)
    requires IsSend(providers, t) && Named(providers) && WinnerOf(t).Some?
    ensures WinnerOf(t).value.channel != ""
  {
    hide InferChannel;
  }

  /** With the attempts gone the name is right exactly if nobody won; with others left, if the last of them won. */
  lemma TornName(n: Note, providers: seq<Provider>, t: seq<Attempt>, send: Sending)
    requires IsSend(providers, t) && Named(providers) && (send.Saved? || send.Cleared?)
    requires forall i :: 0 <= i < |n.rows| ==> n.rows[i].channel != ""
    ensures var w, last := WinnerOf(t), LastOk(n.rows);
            NamesLastSuccess(Written(n, ResultOf(t), send)) <==>
              if send.Cleared? || last.None? then w.None?
              else w.Some? && w.value.channel == last.value.channel && OrEmpty(w.value.mid) == last.value.mid
  {
    RecordedName(n, providers, t);
    if WinnerOf(t).Some? {
      WinnerIsNamed(providers, t);
    }
    NoLastOk();
    LastOkIsRow(n.rows);
    hide LastOk, Recorded, ResultOf, IsSend, Named, WinnerOf;
  }

  lemma WinnerMeansOk(t: seq<Attempt>)
    ensures WinnerOf(t).Some? == ResultOf(t).ok
  {
  }

  /** A start that died between the two saves left a right name exactly when it failed. */
  lemma TornStart(cfg: Config, s: State, send: Sending)
    requires IsChain(cfg) && Named(cfg.chain) && HonestSend(cfg, send) && s.note.None? && (send.Saved? || send.Cleared?)
    ensures var died := Do(cfg, s, Start(send));
            died.note.Some? && (NamesLastSuccess(died.note.value) <==> !ResultOf(Tries(cfg.chain, send.ask)).ok)
  {
    var n, t := Note(Receipts.Queued, "", "", s.next, []), Tries(cfg.chain, send.ask);
    TriesAreSend(cfg.chain, send.ask);
    TornName(n, cfg.chain, t, send);
    WinnerMeansOk(t);
    NoLastOk();
    hide NamesLastSuccess, LastOk, Tries, Written, ResultOf, IsSend, Named, OneChannelEach, Honest, WinnerOf;
  }

  lemma RowsAreNamed(cfg: Config, s: State)
    requires Sound(cfg, s) && s.note.Some? && Named(cfg.chain)
    ensures forall i :: 0 <= i < |s.note.value.rows| ==> s.note.value.rows[i].channel != ""
  {
    hide InferChannel, NoChannelTwice, FewCalls, CallsFor, RowsInOrder, NamesLastSuccess;
    var rows := s.note.value.rows;
    forall i | 0 <= i < |rows| ensures rows[i].channel != "" {
      assert rows[i].channel in Tried(rows);
    }
  }

  /**
   A resend that died there: with the attempts gone, exactly when it failed; with the old ones still there, exactly
   when its winner, or nobody, is also what the last success on record names.
   */
  lemma TornResend(cfg: Config, s: State, send: Sending)
    requires Sound(cfg, s) && IsChain(cfg) && Named(cfg.chain) && HonestSend(cfg, send)
    requires s.note.Some? && s.token && (send.Saved? || send.Cleared?)
    ensures var died, w, last := Do(cfg, s, Resend(send)), WinnerOf(Tries(cfg.chain, send.ask)), LastOk(s.note.value.rows);
            && died.note.Some?
            && (NamesLastSuccess(died.note.value) <==>
                 if send.Cleared? || last.None? then w.None?
                 else w.Some? && w.value.channel == last.value.channel && OrEmpty(w.value.mid) == last.value.mid)
  {
    var n, t := s.note.value.(logical := s.next, status := Receipts.Queued), Tries(cfg.chain, send.ask);
    hide Do, Sound, NamesLastSuccess, LastOk, Tries, Written, ResultOf, IsSend, Named, OneChannelEach, Honest, WinnerOf;
    ResendWrites(cfg, s, send);
    TriesAreSend(cfg.chain, send.ask);
    RowsAreNamed(cfg, s);
    TornName(n, cfg.chain, t, send);
  }

  lemma ResendWrites(cfg: Config, s: State, send: Sending)
    requires s.note.Some? && s.token && !send.NotCalled?
    ensures var n := s.note.value.(logical := s.next, status := Receipts.Queued);
            Do(cfg, s, Resend(send)).note == Some(Written(n, ResultOf(Tries(cfg.chain, send.ask)), send))
  {
    hide Written, ResultOf, Tries;
  }

  lemma {:induction false} LastOkIsRow(rows: seq<AttemptRow>)
    ensures LastOk(rows).Some? ==> LastOk(rows).value in rows && LastOk(rows).value.channel in Tried(rows)
  {
    if rows != [] {
      LastOkIsRow(rows[..|rows| - 1]);
    }
  }

  lemma TornAppend(n: Note, paths: seq<Provider>, t: seq<Attempt>)
    requires RowsInOrder(n.rows) && NamesLastSuccess(n) && IsSend(paths, t) && Named(paths) && ChannelsIn(t) !! Tried(n.rows)
    ensures NamesLastSuccess(n.(rows := Appended(n, ResultOf(t)).rows)) <==> WinnerOf(t).None?
  {
    AppendedIsSound(n, paths, t);
    LastOkAfter(n.rows, t, |n.rows|);
    LastOkIsRow(n.rows);
    if WinnerOf(t).Some? {
      assert t[|t| - 1].channel in ChannelsIn(t);
      WinnerIsNamed(paths, t);
    }
    hide LastOk, Appended, IsSend, Named, RowsInOrder, Tried, ChannelsIn;
  }

  lemma EscalationAppends(cfg: Config, s: State, ask: Provider -> Answer)
    requires Paths(cfg, s) != []
    ensures var n := s.note.value;
            (Do(cfg, s, Escalate(ask, AfterAppend)).note
             == Some(n.(rows := Appended(n, ResultOf(Tries(Paths(cfg, s), ask))).rows)))
  {
    hide Appended, ResultOf, Tries, CallsOf, AllRecorded;
  }

  lemma PathsAreNamed(cfg: Config, paths: seq<Provider>)
    requires Named(cfg.chain) && forall p :: p in paths ==> p in cfg.chain
    ensures Named(paths)
  {
    hide InferChannel;
    forall i | 0 <= i < |paths| ensures InferChannel(paths[i]) != "" {
      assert paths[i] in cfg.chain;
    }
  }

  lemma SoundRows(cfg: Config, s: State)
    requires Sound(cfg, s) && s.note.Some?
    ensures RowsInOrder(s.note.value.rows)
  {
    hide RowsInOrder, NoChannelTwice, FewCalls, NamesLastSuccess;
  }

  /** An escalation that died there, from a right name: it left a right one exactly when it failed. */
  lemma TornEscalation(cfg: Config, s: State, ask: Provider -> Answer)
    requires Sound(cfg, s) && IsChain(cfg) && Named(cfg.chain) && Honest(cfg.chain, ask) && Paths(cfg, s) != []
    requires NamesLastSuccess(s.note.value)
    ensures var died := Do(cfg, s, Escalate(ask, AfterAppend));
            died.note.Some? && (NamesLastSuccess(died.note.value) <==> !ResultOf(Tries(Paths(cfg, s), ask)).ok)
  {
    hide Do, Sound, Tries, IsSend, Named, OneChannelEach, Honest, RowsInOrder, Tried, ChannelsIn, NamesLastSuccess, Untried,
         Appended, ResultOf, WinnerOf;
    var t, paths := Tries(Paths(cfg, s), ask), Paths(cfg, s);
    SoundRows(cfg, s);
    PathsAreUntried(cfg, s, ask);
    PathsAreNamed(cfg, paths);
    WinnerMeansOk(t);
    TornAppend(s.note.value, paths, t);
    EscalationAppends(cfg, s, ask);
  }

  /** A run of one event leaves a notification that names a success no attempt records. */
  lemma TornStartMisnames(cfg: Config, ask: Provider -> Answer)
    requires IsChain(cfg) && Named(cfg.chain) && Honest(cfg.chain, ask) && ResultOf(Tries(cfg.chain, ask)).ok
    ensures var s := Run(cfg, [Start(Saved(ask))]); s.note.Some? && !NamesLastSuccess(s.note.value)
  {
    TornStart(cfg, NOTHING, Saved(ask));
    OneEvent(cfg, Start(Saved(ask)));
    hide Do, NamesLastSuccess;
  }
}
