/**
 The on-the-way message of one delivery (deliveries/services.py): sent down the chain at the start,
 escalated to untried channels while no receipt confirms it, and replaced by a new logical message on a
 resend. The recipient must never get one logical message twice on a channel.
 */
module Escalation {
  import opened Prelude
  import opened Calendar
  import opened Chains
  import Receipts

  datatype AttemptRow = AttemptRow(channel: string, ok: bool, mid: string, no: nat)

  datatype Note = Note(status: Receipts.Status, channel: string, mid: string, logical: nat, rows: seq<AttemptRow>)

  /** A provider was handed the logical message. */
  datatype Call = Call(logical: nat, channel: string)

  // ---- recording a result -----------------------------------------------------------------------------

  function OrEmpty(s: Option<string>): string {
    if s.Some? then s.value else ""
  }

  /** A result without attempts, from a single-channel provider, is mirrored as its only attempt. */
  function Views(r: SendResult): seq<Attempt> {
    if r.attempts == [] then [Attempt(r.channel, r.ok, r.mid)] else r.attempts
  }

  function RowsOf(views: seq<Attempt>, start: nat): seq<AttemptRow> {
    seq(|views|, i requires 0 <= i < |views| =>
      AttemptRow(views[i].channel, views[i].ok, OrEmpty(views[i].mid), start + i + 1))
  }

  function MaxNo(rows: seq<AttemptRow>): nat {
    if rows == [] then 0
    else
      var rest := MaxNo(rows[..|rows| - 1]);
      if rows[|rows| - 1].no > rest then rows[|rows| - 1].no else rest
  }

  function FirstOk(attempts: seq<Attempt>): Option<Attempt> {
    if attempts == [] then None
    else if attempts[0].ok then Some(attempts[0]) else FirstOk(attempts[1..])
  }

  /** `_send_and_record` and `_record_attempts` */
  function Recorded(n: Note, r: SendResult): Note {
    var winner := FirstOk(r.attempts);
    var ok := if r.attempts != [] then winner.Some? else r.ok;
    var channel, mid :=
      if r.attempts == [] then r.channel else if winner.Some? then winner.value.channel else "",
      if r.attempts == [] then OrEmpty(r.mid) else if winner.Some? then OrEmpty(winner.value.mid) else "";
    n.(status := if ok then Receipts.Sent else Receipts.Failed, channel := channel, mid := mid,
       rows := RowsOf(Views(r), 0))
  }

  /** `_append_attempts` and the rest of `escalate_delivery` */
  function Appended(n: Note, r: SendResult): Note {
    var n' := n.(rows := n.rows + RowsOf(Views(r), MaxNo(n.rows)));
    if r.ok then n'.(status := Receipts.Sent, channel := r.channel, mid := OrEmpty(r.mid)) else n'
  }

  function Tried(rows: seq<AttemptRow>): set<string> {
    set i | 0 <= i < |rows| :: rows[i].channel
  }

  // ---- runs ---------------------------------------------------------------------------------------------

  datatype Config = Config(chain: seq<Provider>, escalation: bool)

  /**
   `next` is the next logical message id. The last three fields only remember what happened: the messages of
   the sends that were lost, once for each; the messages an escalation called providers for while a call of it
   was in none of its attempts; and whether the notification and its attempts were saved apart.
   */
  datatype State = State(
    note: Option<Note>, token: bool, calls: seq<Call>, next: nat, lost: multiset<nat>, blind: set<nat>, torn: bool)

  /** How far a start or a resend gets after its commit; each stop is a point where the process can die. */
  datatype Sending =
    | NotCalled
    | Called(ask: Provider -> Answer)   // the provider has the message, nothing is saved
    | Saved(ask: Provider -> Answer)    // the notification is saved, the attempts are the old ones
    | Cleared(ask: Provider -> Answer)  // and the old attempts are gone
    | Done(ask: Provider -> Answer)

  /** The same for an escalation. */
  datatype Stop = AfterCall | AfterAppend | AtEnd

  datatype Event =
    | Start(send: Sending)
    | Receipt(report: Receipts.Report)
    | Escalate(ask: Provider -> Answer, stop: Stop)
    | Resend(send: Sending)
    | DropToken

  function CallsOf(logical: nat, attempts: seq<Attempt>): seq<Call> {
    seq(|attempts|, i requires 0 <= i < |attempts| => Call(logical, attempts[i].channel))
  }

  /** The channels that were handed a message. */
  function CalledOn(calls: seq<Call>, logical: nat): set<string> {
    set i | 0 <= i < |calls| && calls[i].logical == logical :: calls[i].channel
  }

  /** Every call of the message is among its attempts. */
  predicate AllRecorded(s: State, n: Note) {
    CalledOn(s.calls, n.logical) <= Tried(n.rows)
  }

  /** What is saved of a send that stops there. */
  function Written(n: Note, r: SendResult, send: Sending): Note {
    match send
    case NotCalled | Called(_) => n
    case Saved(_) => Recorded(n, r).(rows := n.rows)
    case Cleared(_) => Recorded(n, r).(rows := [])
    case Done(_) => Recorded(n, r)
  }

  function Send(cfg: Config, s: State, n: Note, send: Sending): State {
    if send.NotCalled? then s.(note := Some(n))
    else
      var tries := Tries(cfg.chain, send.ask);
      s.(note := Some(Written(n, ResultOf(tries), send)), calls := s.calls + CallsOf(n.logical, tries),
         lost := if send.Done? then s.lost else s.lost + multiset{n.logical},
         torn := if send.Called? then s.torn else !send.Done?)
  }

  predicate IsConfirmed(n: Note) {
    n.status == Receipts.Delivered || n.status == Receipts.Read
  }

  /** `escalate_delivery` raises: it has to read the channel of a provider class that declares none. */
  predicate Raises(cfg: Config, s: State) {
    cfg.escalation && s.note.Some? && !IsConfirmed(s.note.value) && !AllDeclared(cfg.chain)
  }

  /** The providers `escalate_delivery` would call; none where it returns early or raises. */
  function Paths(cfg: Config, s: State): seq<Provider> {
    if !cfg.escalation || s.note.None? || IsConfirmed(s.note.value) || !AllDeclared(cfg.chain) || !s.token then []
    else Untried(cfg.chain, Tried(s.note.value.rows))
  }

  function EscalateTo(s: State, t: seq<Attempt>, stop: Stop): State
    requires s.note.Some?
  {
    var n, r := s.note.value, ResultOf(t);
    s.(note := Some(if stop.AtEnd? then Appended(n, r)
                    else if stop.AfterAppend? then n.(rows := Appended(n, r).rows) else n),
       calls := s.calls + CallsOf(n.logical, t),
       lost := if stop.AfterCall? then s.lost + multiset{n.logical} else s.lost,
       blind := if AllRecorded(s, n) then s.blind else s.blind + {n.logical},
       torn := if stop.AfterCall? || !r.ok then s.torn else stop.AfterAppend?)
  }

  function Do(cfg: Config, s: State, e: Event): State {
    match e
    case Start(send) =>
      if s.note.Some? then s
      else Send(cfg, s.(token := true, next := s.next + 1), Note(Receipts.Queued, "", "", s.next, []), send)
    case Receipt(report) =>
      if s.note.Some? && report.mid != "" && s.note.value.mid == report.mid
      then s.(note := Some(s.note.value.(status := Receipts.Offer(s.note.value.status, report))))
      else s
    case Escalate(ask, stop) =>
      var paths := Paths(cfg, s);
      if paths == [] then s else EscalateTo(s, Tries(paths, ask), stop)
    case Resend(send) =>
      if s.note.None? || !s.token then s
      else Send(cfg, s.(next := s.next + 1), s.note.value.(logical := s.next, status := Receipts.Queued), send)
    case DropToken => s.(token := false)
  }

  const NOTHING := State(None, false, [], 0, multiset{}, {}, false)

  function Run(cfg: Config, events: seq<Event>): State {
    if |events| == 0 then NOTHING
    else Do(cfg, Run(cfg, events[..|events| - 1]), events[|events| - 1])
  }

  // ---- what holds in every run ------------------------------------------------------------------------------

  ghost predicate HonestSend(cfg: Config, send: Sending) {
    !send.NotCalled? ==> Honest(cfg.chain, send.ask)
  }

  ghost predicate HonestEvent(cfg: Config, e: Event) {
    && (e.Start? || e.Resend? ==> HonestSend(cfg, e.send))
    && (e.Escalate? ==> Honest(cfg.chain, e.ask))
  }

  /** The chain is not empty and each provider has its own channel. */
  ghost predicate IsChain(cfg: Config) {
    cfg.chain != [] && OneChannelEach(cfg.chain)
  }

  /** And each answers with no other. */
  ghost predicate OneChannelRun(cfg: Config, events: seq<Event>) {
    IsChain(cfg) && forall i :: 0 <= i < |events| ==> HonestEvent(cfg, events[i])
  }

  function ChannelsOf(chain: seq<Provider>): set<string> {
    set p | p in chain :: InferChannel(p)
  }

  /** Attempts are numbered 1..n and no two are on one channel. */
  ghost predicate RowsInOrder(rows: seq<AttemptRow>) {
    && (forall i :: 0 <= i < |rows| ==> rows[i].no == i + 1)
    && forall i, j :: 0 <= i < j < |rows| ==> rows[i].channel != rows[j].channel
  }

  function LastOk(rows: seq<AttemptRow>): Option<AttemptRow> {
    if rows == [] then None
    else if rows[|rows| - 1].ok then Some(rows[|rows| - 1]) else LastOk(rows[..|rows| - 1])
  }

  /** The notification names the last attempt that succeeded, or nothing. */
  predicate NamesLastSuccess(n: Note) {
    var last := LastOk(n.rows);
    n.channel == (if last.Some? then last.value.channel else "")
    && n.mid == (if last.Some? then last.value.mid else "")
  }

  /** No channel was handed one logical message twice, but perhaps those in `but`. */
  ghost predicate NoChannelTwice(calls: seq<Call>, but: set<nat>) {
    forall i, j :: 0 <= i < j < |calls| && calls[i].logical == calls[j].logical && calls[i].logical !in but ==>
      calls[i].channel != calls[j].channel
  }

  function CallsFor(calls: seq<Call>, logical: nat): set<nat> {
    set i | 0 <= i < |calls| && calls[i].logical == logical
  }

  /** No message has more calls than one a provider, and one a provider more for each send of it that was lost. */
  ghost predicate FewCalls(calls: seq<Call>, chain: nat, lost: multiset<nat>) {
    forall l :: |CallsFor(calls, l)| <= chain * (1 + lost[l])
  }

  /** Ids in use are below `next`. */
  ghost predicate IdsBelow(s: State) {
    && (forall i :: 0 <= i < |s.calls| ==> s.calls[i].logical < s.next)
    && (forall l :: l in s.lost ==> l < s.next)
    && (s.note.None? ==> s.calls == [])
    && (s.note.Some? ==> s.note.value.logical < s.next)
  }

  /** The attempts are in order and on the chain; they record every call of the message unless one was lost. */
  ghost predicate NoteSound(cfg: Config, s: State, n: Note) {
    && RowsInOrder(n.rows) && Tried(n.rows) <= ChannelsOf(cfg.chain)
    && (n.logical !in s.lost ==> AllRecorded(s, n))
    && (!s.torn ==> NamesLastSuccess(n))
    && |CallsFor(s.calls, n.logical)| <= |n.rows| + |cfg.chain| * s.lost[n.logical]
  }

  ghost predicate Sound(cfg: Config, s: State) {
    && NoChannelTwice(s.calls, s.blind) && IdsBelow(s)
    && (s.note.Some? ==> NoteSound(cfg, s, s.note.value))
    && FewCalls(s.calls, |cfg.chain|, s.lost)
  }

  // ---- one send ------------------------------------------------------------------------------------------------

  /** The attempts of one send: on the providers' own channels, all failures but perhaps the last. */
  ghost predicate IsSend(providers: seq<Provider>, t: seq<Attempt>) {
    && t != [] && |t| <= |providers|
    && (forall i :: 0 <= i < |t| ==> t[i].channel == InferChannel(providers[i]))
    && (forall i :: 0 <= i < |t| - 1 ==> !t[i].ok)
    && forall i, j :: 0 <= i < j < |t| ==> t[i].channel != t[j].channel
  }

  lemma TriesAreSend(providers: seq<Provider>, ask: Provider -> Answer)
    requires providers != [] && OneChannelEach(providers) && Honest(providers, ask)
    ensures IsSend(providers, Tries(providers, ask))
  {
    TriesStopAtSuccess(providers, ask);
    hide InferChannel, Tries;
    var t := Tries(providers, ask);
    forall i | 0 <= i < |t| ensures t[i].channel == InferChannel(providers[i]) {
      assert providers[i] in providers;
    }
  }

  lemma {:induction false} FirstOkIsLast(t: seq<Attempt>)
    requires t != [] && forall i :: 0 <= i < |t| - 1 ==> !t[i].ok
    ensures FirstOk(t) == if t[|t| - 1].ok then Some(t[|t| - 1]) else None
  {
    if |t| > 1 {
      FirstOkIsLast(t[1..]);
    }
  }

  lemma {:induction false} LastOkOfFailures(rows: seq<AttemptRow>, more: seq<AttemptRow>)
    requires forall i :: 0 <= i < |more| ==> !more[i].ok
    ensures LastOk(rows + more) == LastOk(rows)
  {
    if more == [] {
      assert rows + more == rows;
    } else {
      var front := more[..|more| - 1];
      LastOkOfFailures(rows, front);
      assert (rows + more)[..|rows + more| - 1] == rows + front;
    }
  }

  /** After a send's attempts, the last success is the send's if it succeeded, else the one before. */
  lemma LastOkAfter(rows: seq<AttemptRow>, t: seq<Attempt>, start: nat)
    requires t != [] && forall i :: 0 <= i < |t| - 1 ==> !t[i].ok
    ensures var more := RowsOf(t, start);
            LastOk(rows + more) == if t[|t| - 1].ok then Some(more[|t| - 1]) else LastOk(rows)
  {
    var more := RowsOf(t, start);
    if !t[|t| - 1].ok {
      LastOkOfFailures(rows, more);
    }
  }

  lemma {:induction false} MaxNoOfNumbered(rows: seq<AttemptRow>)
    requires forall i :: 0 <= i < |rows| ==> rows[i].no == i + 1
    ensures MaxNo(rows) == |rows|
  {
    if rows != [] {
      MaxNoOfNumbered(rows[..|rows| - 1]);
    }
  }

  lemma RecordedIsSound(n: Note, providers: seq<Provider>, t: seq<Attempt>)
    requires IsSend(providers, t)
    ensures var n' := Recorded(n, ResultOf(t));
            && RowsInOrder(n'.rows) && NamesLastSuccess(n') && n'.logical == n.logical
            && n'.rows == RowsOf(t, 0)
  {
    hide InferChannel, LastOk, FirstOk;
    FirstOkIsLast(t);
    LastOkAfter([], t, 0);
    assert [] + RowsOf(t, 0) == RowsOf(t, 0);
    assert LastOk([]) == None by {
      NoLastOk();
    }
  }

  lemma NoLastOk()
    ensures LastOk([]) == None
  {
  }

  lemma AppendedIsSound(n: Note, providers: seq<Provider>, t: seq<Attempt>)
    requires RowsInOrder(n.rows) && IsSend(providers, t)
    requires ChannelsIn(t) !! Tried(n.rows)
    ensures var n' := Appended(n, ResultOf(t));
            && RowsInOrder(n'.rows) && n'.logical == n.logical
            && (ResultOf(t).ok || NamesLastSuccess(n) ==> NamesLastSuccess(n'))
            && (!ResultOf(t).ok ==> n' == n.(rows := n'.rows))
            && n'.rows == n.rows + RowsOf(t, |n.rows|)
  {
    hide InferChannel, LastOk, MaxNo, Tried, ChannelsIn;
    MaxNoOfNumbered(n.rows);
    LastOkAfter(n.rows, t, |n.rows|);
    RowsStayInOrder(n.rows, providers, t);
    hide RowsInOrder, RowsOf;
  }

  lemma RowsStayInOrder(rows: seq<AttemptRow>, providers: seq<Provider>, t: seq<Attempt>)
    requires RowsInOrder(rows) && IsSend(providers, t) && ChannelsIn(t) !! Tried(rows)
    ensures RowsInOrder(rows + RowsOf(t, |rows|))
  {
    hide InferChannel;
    forall i, j | 0 <= i < |rows| && 0 <= j < |t| ensures rows[i].channel != t[j].channel {
      assert rows[i].channel in Tried(rows) && t[j].channel in ChannelsIn(t);
    }
  }

  lemma TriedOf(rows: seq<AttemptRow>, t: seq<Attempt>, start: nat)
    ensures Tried(rows + RowsOf(t, start)) == Tried(rows) + ChannelsIn(t)
  {
    var all := rows + RowsOf(t, start);
    forall i | 0 <= i < |t| ensures t[i].channel in Tried(all) {
      assert all[|rows| + i].channel == t[i].channel;
    }
    forall i | 0 <= i < |rows| ensures rows[i].channel in Tried(all) {
      assert all[i] == rows[i];
    }
  }

  function ChannelsIn(t: seq<Attempt>): set<string> {
    set i | 0 <= i < |t| :: t[i].channel
  }

  lemma CallsStayDistinct(calls: seq<Call>, but: set<nat>, but': set<nat>, logical: nat, t: seq<Attempt>, providers: seq<Provider>)
    requires NoChannelTwice(calls, but) && IsSend(providers, t) && but <= but'
    requires logical !in but' ==> CalledOn(calls, logical) !! ChannelsIn(t)
    ensures NoChannelTwice(calls + CallsOf(logical, t), but')
  {
    hide InferChannel;
    var all := calls + CallsOf(logical, t);
    forall i, j | 0 <= i < j < |all| && all[i].logical == all[j].logical && all[i].logical !in but'
      ensures all[i].channel != all[j].channel
    {
      if |calls| <= j {
        assert all[j] == Call(logical, t[j - |calls|].channel) && all[j].channel in ChannelsIn(t);
        if i < |calls| {
          assert all[i].channel in CalledOn(calls, logical);
        }
      }
    }
  }

  lemma CallsForMore(calls: seq<Call>, logical: nat, t: seq<Attempt>, l: nat)
    ensures |CallsFor(calls + CallsOf(logical, t), l)| == |CallsFor(calls, l)| + if l == logical then |t| else 0
  {
    if t == [] {
      assert calls + CallsOf(logical, t) == calls;
    } else {
      var n, front := |t| - 1, t[..|t| - 1];
      CallsForMore(calls, logical, front, l);
      var all, before := calls + CallsOf(logical, t), calls + CallsOf(logical, front);
      assert all == before + [Call(logical, t[n].channel)];
      assert CallsFor(all, l) == CallsFor(before, l) + if l == logical then {|before|} else {};
    }
  }

  lemma CalledOnMore(calls: seq<Call>, logical: nat, t: seq<Attempt>, l: nat)
    ensures CalledOn(calls + CallsOf(logical, t), l) == CalledOn(calls, l) + if l == logical then ChannelsIn(t) else {}
  {
    var all, more := calls + CallsOf(logical, t), if l == logical then ChannelsIn(t) else {};
    forall c | c in CalledOn(calls, l) + more ensures c in CalledOn(all, l) {
      if c in CalledOn(calls, l) {
        var i :| 0 <= i < |calls| && calls[i].logical == l && calls[i].channel == c;
        assert all[i] == calls[i];
      } else {
        var i :| 0 <= i < |t| && t[i].channel == c;
        assert all[|calls| + i] == Call(logical, c);
      }
    }
  }

  // ---- steps ---------------------------------------------------------------------------------------------------

  lemma SentOnChain(cfg: Config, providers: seq<Provider>, t: seq<Attempt>)
    requires IsSend(providers, t) && forall p :: p in providers ==> p in cfg.chain
    ensures ChannelsIn(t) <= ChannelsOf(cfg.chain)
    ensures forall i :: 0 <= i < |t| ==> t[i].channel in ChannelsIn(t)
  {
  }

  lemma CallsAddUp(logical: nat, t: seq<Attempt>, calls: seq<Call>, chain: nat, before: multiset<nat>, after: multiset<nat>)
    requires FewCalls(calls, chain, before)
    requires |t| <= chain && (forall l :: before[l] <= after[l])
    requires |CallsFor(calls, logical)| + |t| <= chain * (1 + after[logical])
    ensures FewCalls(calls + CallsOf(logical, t), chain, after)
  {
    hide CallsFor, CallsOf;
    forall l ensures |CallsFor(calls + CallsOf(logical, t), l)| <= chain * (1 + after[l]) {
      CallsForMore(calls, logical, t, l);
      if l != logical {
        Times(chain, 1 + before[l], 1 + after[l]);
      }
    }
  }

  lemma Times(c: nat, a: nat, b: nat)
    requires a <= b
    ensures c * a <= c * b
  {
  }

  lemma NoCallsYet(calls: seq<Call>, logical: nat)
    requires forall i :: 0 <= i < |calls| ==> calls[i].logical != logical
    ensures CallsFor(calls, logical) == {}
  {
  }

  lemma NotCalledYet(calls: seq<Call>, logical: nat)
    requires forall i :: 0 <= i < |calls| ==> calls[i].logical != logical
    ensures CalledOn(calls, logical) == {}
  {
  }

  /** What each stop leaves of the notification. */
  lemma WrittenIsSound(n: Note, providers: seq<Provider>, t: seq<Attempt>, send: Sending, torn: bool)
    requires IsSend(providers, t) && RowsInOrder(n.rows) && (!torn ==> NamesLastSuccess(n)) && !send.NotCalled?
    ensures var n' := Written(n, ResultOf(t), send);
            && RowsInOrder(n'.rows) && n'.logical == n.logical
            && (n'.rows == n.rows || n'.rows == [] || (send.Done? && n'.rows == RowsOf(t, 0)))
            && (send.Done? ==> n'.rows == RowsOf(t, 0))
            && ((if send.Called? then !torn else send.Done?) ==> NamesLastSuccess(n'))
  {
    RecordedIsSound(n, providers, t);
    hide LastOk, NamesLastSuccess, InferChannel, Recorded, ResultOf, RowsOf;
  }

  lemma TriedNothing()
    ensures Tried([]) == {}
  {
  }

  /** Any send of a message id that has had no calls: the start, or a resend. */
  lemma SendIsSound(cfg: Config, s: State, n: Note, send: Sending)
    requires IsChain(cfg) && HonestSend(cfg, send)
    requires NoChannelTwice(s.calls, s.blind) && IdsBelow(s.(note := Some(n)))
    requires RowsInOrder(n.rows) && Tried(n.rows) <= ChannelsOf(cfg.chain) && (!s.torn ==> NamesLastSuccess(n))
    requires n.logical !in s.lost && forall i :: 0 <= i < |s.calls| ==> s.calls[i].logical != n.logical
    requires FewCalls(s.calls, |cfg.chain|, s.lost)
    ensures Sound(cfg, Send(cfg, s, n, send))
  {
    hide InferChannel, LastOk, Tries, OneChannelEach, Honest, NoChannelTwice, RowsInOrder, NamesLastSuccess, Written,
         ChannelsOf, RowsOf, ResultOf, ChannelsIn, CallsOf, CallsFor, CalledOn, Tried, FewCalls;
    NoCallsYet(s.calls, n.logical);
    NotCalledYet(s.calls, n.logical);
    if !send.NotCalled? {
      var t := Tries(cfg.chain, send.ask);
      var s' := Send(cfg, s, n, send);
      TriesAreSend(cfg.chain, send.ask);
      WrittenIsSound(n, cfg.chain, t, send, s.torn);
      CallsStayDistinct(s.calls, s.blind, s.blind, n.logical, t, cfg.chain);
      CallsForMore(s.calls, n.logical, t, n.logical);
      CalledOnMore(s.calls, n.logical, t, n.logical);
      Times(|cfg.chain|, 1, 1 + s'.lost[n.logical]);
      CallsAddUp(n.logical, t, s.calls, |cfg.chain|, s.lost, s'.lost);
      SentOnChain(cfg, cfg.chain, t);
      TriedNothing();
      TriedOf([], t, 0);
      assert [] + RowsOf(t, 0) == RowsOf(t, 0);
      NewIds(s, s', n.logical, t);
      SentNoteIsSound(cfg, s, s', s'.note.value, t, send.Done?);
      hide *;
    }
  }

  lemma NewIds(s: State, s': State, logical: nat, t: seq<Attempt>)
    requires IdsBelow(s.(note := s'.note)) && logical < s.next && s'.next == s.next
    requires s'.calls == s.calls + CallsOf(logical, t) && s'.note.Some? && s'.note.value.logical == logical
    requires s'.lost == s.lost || s'.lost == s.lost + multiset{logical}
    ensures IdsBelow(s')
  {
  }

  /** The message had no call before, so its attempts record its calls, or it is among the lost. */
  lemma SentNoteIsSound(cfg: Config, s: State, s': State, n: Note, t: seq<Attempt>, done: bool)
    requires |t| <= |cfg.chain| && CalledOn(s'.calls, n.logical) == ChannelsIn(t)
    requires |CallsFor(s'.calls, n.logical)| == |t|
    requires s'.lost == if done then s.lost else s.lost + multiset{n.logical}
    requires RowsInOrder(n.rows) && Tried(n.rows) <= ChannelsOf(cfg.chain) && (!s'.torn ==> NamesLastSuccess(n))
    requires n.logical !in s.lost && (done ==> n.rows == RowsOf(t, 0) && Tried(n.rows) == ChannelsIn(t))
    ensures NoteSound(cfg, s', n)
  {
    hide RowsInOrder, NamesLastSuccess, ChannelsOf, CallsFor, CalledOn, Tried;
  }

  /** What an escalation has left to try, and what it calls of it. */
  lemma PathsAreUntried(cfg: Config, s: State, ask: Provider -> Answer)
    requires OneChannelEach(cfg.chain) && Honest(cfg.chain, ask) && Paths(cfg, s) != []
    ensures var paths := Paths(cfg, s);
            var t := Tries(paths, ask);
            && IsSend(paths, t)
            && (forall p :: p in paths ==> p in cfg.chain)
            && |paths| <= |cfg.chain|
            && ChannelsIn(t) !! Tried(s.note.value.rows)
  {
    var tried := Tried(s.note.value.rows);
    var paths := Paths(cfg, s);
    UntriedMembers(cfg.chain, tried);
    UntriedOneChannelEach(cfg.chain, tried);
    TriesAreSend(paths, ask);
    hide Tries, Untried, Tried;
    var t := Tries(paths, ask);
    forall i | 0 <= i < |t| ensures t[i].channel !in tried {
      assert paths[i] in paths;
      DeclaredIsInferred(cfg.chain, paths[i]);
    }
  }

  lemma DeclaredIsInferred(chain: seq<Provider>, p: Provider)
    requires OneChannelEach(chain) && p in chain && p.declared.Some?
    ensures InferChannel(p) == p.declared.value
  {
  }

  lemma {:induction false} RowsAreFew(cfg: Config, rows: seq<AttemptRow>)
    requires RowsInOrder(rows) && Tried(rows) <= ChannelsOf(cfg.chain)
    ensures |rows| <= |cfg.chain|
  {
    hide InferChannel, ChannelsOf;
    var channelOf := map i: nat | i < |rows| :: rows[i].channel;
    InjectionFits(channelOf, ChannelsOf(cfg.chain));
    ChannelsAreFew(cfg.chain);
    IndexCount(|rows|, channelOf.Keys);
  }

  lemma {:induction false} IndexCount(n: nat, s: set<nat>)
    requires forall i: nat :: i in s <==> i < n
    ensures |s| == n
  {
    if n > 0 {
      IndexCount(n - 1, s - {n - 1});
    } else {
      assert s == {};
    }
  }

  lemma {:induction false} ChannelsAreFew(chain: seq<Provider>)
    ensures |ChannelsOf(chain)| <= |chain|
  {
    hide InferChannel;
    if chain != [] {
      ChannelsAreFew(chain[1..]);
      assert ChannelsOf(chain) == {InferChannel(chain[0])} + ChannelsOf(chain[1..]);
    } else {
      assert ChannelsOf(chain) == {};
    }
  }

  lemma OneMore(c: nat, a: nat)
    ensures c * (a + 1) == c * a + c
  {
  }

  /** Where an escalation stops decides what is saved, and whether its calls are recorded. */
  lemma EscalatedNoteIsSound(cfg: Config, s: State, n: Note, paths: seq<Provider>, t: seq<Attempt>, stop: Stop)
    requires s.note == Some(n) && NoteSound(cfg, s, n) && IsSend(paths, t) && |t| <= |cfg.chain|
    requires ChannelsIn(t) <= ChannelsOf(cfg.chain) && ChannelsIn(t) !! Tried(n.rows)
    ensures var s' := EscalateTo(s, t, stop);
            && s'.note.Some? && s'.note.value.logical == n.logical && NoteSound(cfg, s', s'.note.value)
            && |CallsFor(s'.calls, n.logical)| <= |cfg.chain| * (1 + s'.lost[n.logical])
  {
    hide InferChannel, LastOk, RowsInOrder, NamesLastSuccess, Appended, ChannelsOf, RowsOf, Tried, ResultOf, IsSend, CallsFor,
         CalledOn, ChannelsIn;
    var s', k := EscalateTo(s, t, stop), |cfg.chain|;
    AppendedIsSound(n, paths, t);
    TriedOf(n.rows, t, |n.rows|);
    CallsForMore(s.calls, n.logical, t, n.logical);
    AppendedLength(n.rows, t);
    RowsAreFew(cfg, s'.note.value.rows);
    OneMore(k, s.lost[n.logical]);
    OneMore(k, s.lost[n.logical] + 1);
    CalledOnMore(s.calls, n.logical, t, n.logical);
  }

  lemma AppendedLength(rows: seq<AttemptRow>, t: seq<Attempt>)
    ensures |rows + RowsOf(t, |rows|)| == |rows| + |t|
  {
  }

  lemma EscalatedFields(s: State, t: seq<Attempt>, stop: Stop)
    requires s.note.Some?
    ensures var s', n := EscalateTo(s, t, stop), s.note.value;
            && s'.note.Some? && s'.calls == s.calls + CallsOf(n.logical, t) && s'.next == s.next
            && (s'.lost == s.lost || s'.lost == s.lost + multiset{n.logical})
            && s'.blind == if AllRecorded(s, n) then s.blind else s.blind + {n.logical}
  {
  }

  lemma EscalateKeepsDistinct(cfg: Config, s: State, n: Note, paths: seq<Provider>, t: seq<Attempt>, stop: Stop)
    requires s.note == Some(n) && NoteSound(cfg, s, n) && NoChannelTwice(s.calls, s.blind)
    requires IsSend(paths, t) && ChannelsIn(t) !! Tried(n.rows)
    ensures var s' := EscalateTo(s, t, stop); NoChannelTwice(s'.calls, s'.blind)
  {
    hide NoteSound, NoChannelTwice, IsSend, ChannelsIn, Tried, CallsOf, CalledOn, EscalateTo;
    var s' := EscalateTo(s, t, stop);
    EscalatedFields(s, t, stop);
    CallsStayDistinct(s.calls, s.blind, s'.blind, n.logical, t, paths);
  }

  lemma EscalateKeepsIds(s: State, t: seq<Attempt>, stop: Stop)
    requires s.note.Some? && IdsBelow(s)
    ensures IdsBelow(EscalateTo(s, t, stop))
  {
    hide CallsOf, Appended;
    var s' := EscalateTo(s, t, stop);
    assert s'.note.value.logical == s.note.value.logical by {
      AppendedIsSame(s.note.value, ResultOf(t));
    }
    NewIds(s, s', s.note.value.logical, t);
  }

  lemma AppendedIsSame(n: Note, r: SendResult)
    ensures Appended(n, r).logical == n.logical
  {
  }

  lemma EscalateKeepsFew(cfg: Config, s: State, n: Note, t: seq<Attempt>, stop: Stop)
    requires s.note == Some(n) && FewCalls(s.calls, |cfg.chain|, s.lost) && |t| <= |cfg.chain|
    requires var s' := EscalateTo(s, t, stop); |CallsFor(s'.calls, n.logical)| <= |cfg.chain| * (1 + s'.lost[n.logical])
    ensures var s' := EscalateTo(s, t, stop); FewCalls(s'.calls, |cfg.chain|, s'.lost)
  {
    hide EscalateTo, FewCalls, CallsFor, CallsOf;
    EscalatedFields(s, t, stop);
    EscalatedCallsAreFew(s, EscalateTo(s, t, stop), n.logical, t, |cfg.chain|);
  }

  lemma EscalateIsSound(cfg: Config, s: State, ask: Provider -> Answer, stop: Stop)
    requires Sound(cfg, s) && IsChain(cfg) && Honest(cfg.chain, ask) && Paths(cfg, s) != []
    ensures Sound(cfg, EscalateTo(s, Tries(Paths(cfg, s), ask), stop))
  {
    var paths := Paths(cfg, s);
    var n, t := s.note.value, Tries(paths, ask);
    hide InferChannel, Tries, OneChannelEach, Honest, Untried, NoChannelTwice, NoteSound, ChannelsOf, Tried, IsSend,
         ChannelsIn, CallsFor, EscalateTo, Paths, FewCalls, IdsBelow;
    PathsAreUntried(cfg, s, ask);
    SendLength(paths, t);
    SentOnChain(cfg, paths, t);
    EscalatedNoteIsSound(cfg, s, n, paths, t, stop);
    EscalateKeepsDistinct(cfg, s, n, paths, t, stop);
    EscalateKeepsIds(s, t, stop);
    EscalateKeepsFew(cfg, s, n, t, stop);
    hide *;
  }

  lemma EscalatedCallsAreFew(s: State, s': State, logical: nat, t: seq<Attempt>, chain: nat)
    requires FewCalls(s.calls, chain, s.lost) && |t| <= chain && s'.calls == s.calls + CallsOf(logical, t)
    requires s'.lost == s.lost || s'.lost == s.lost + multiset{logical}
    requires |CallsFor(s'.calls, logical)| <= chain * (1 + s'.lost[logical])
    ensures FewCalls(s'.calls, chain, s'.lost)
  {
    hide FewCalls, CallsFor;
    CallsForMore(s.calls, logical, t, logical);
    CallsAddUp(logical, t, s.calls, chain, s.lost, s'.lost);
  }

  lemma SendLength(providers: seq<Provider>, t: seq<Attempt>)
    requires IsSend(providers, t)
    ensures 1 <= |t| <= |providers|
  {
  }

  lemma StepIsSound(cfg: Config, s: State, e: Event)
    requires Sound(cfg, s) && IsChain(cfg) && HonestEvent(cfg, e)
    ensures Sound(cfg, Do(cfg, s, e))
  {
    hide InferChannel, LastOk, Tries, IsChain, Honest, Untried, Send, NoChannelTwice, RowsInOrder, ChannelsOf, Tried, CallsFor,
         EscalateTo, FewCalls;
    if e.Start? && s.note.None? {
      var n := Note(Receipts.Queued, "", "", s.next, []);
      FreshNote(n);
      TriedNothing();
      SendIsSound(cfg, s.(token := true, next := s.next + 1), n, e.send);
    } else if e.Resend? && s.note.Some? && s.token {
      SendIsSound(cfg, s.(next := s.next + 1), s.note.value.(logical := s.next, status := Receipts.Queued), e.send);
    } else if e.Escalate? && Paths(cfg, s) != [] {
      EscalateIsSound(cfg, s, e.ask, e.stop);
    }
  }

  lemma FreshNote(n: Note)
    requires n.rows == [] && n.channel == "" && n.mid == ""
    ensures RowsInOrder(n.rows) && NamesLastSuccess(n)
  {
  }

  lemma NothingIsSound(cfg: Config)
    ensures Sound(cfg, NOTHING)
  {
    assert forall l :: CallsFor([], l) == {};
  }

  /**
   In every run, wherever processes die: no channel gets a logical message twice, unless an escalation acted on
   it while one of its calls had no record; attempts are numbered 1..n on distinct channels; and the notification
   carries the channel and message id of the last attempt that succeeded, or none, unless a process died between
   saving the one and the other.
   */
  lemma {:induction false} RunIsSound(cfg: Config, events: seq<Event>)
    requires OneChannelRun(cfg, events)
    ensures var s := Run(cfg, events);
            && Sound(cfg, s) && NoChannelTwice(s.calls, s.blind)
            && (s.note.Some? ==> RowsInOrder(s.note.value.rows) && (!s.torn ==> NamesLastSuccess(s.note.value)))
  {
    hide Do, IsChain, HonestEvent, RowsInOrder, NamesLastSuccess, NoChannelTwice, CallsFor;
    if |events| > 0 {
      RunIsSound(cfg, events[..|events| - 1]);
      StepIsSound(cfg, Run(cfg, events[..|events| - 1]), events[|events| - 1]);
    } else {
      NothingIsSound(cfg);
    }
  }

  // ---- runs in which nothing dies between a call and its record --------------------------------------------------

  predicate Lives(e: Event) {
    && (e.Start? || e.Resend? ==> e.send.NotCalled? || e.send.Done?)
    && (e.Escalate? ==> e.stop.AtEnd?)
  }

  /** Then there are no exceptions. */
  lemma {:induction false} LivingRunIsSound(cfg: Config, events: seq<Event>)
    requires OneChannelRun(cfg, events) && forall i :: 0 <= i < |events| ==> Lives(events[i])
    ensures var s := Run(cfg, events);
            && s.lost == multiset{} && s.blind == {} && !s.torn
            && NoChannelTwice(s.calls, {}) && (s.note.Some? ==> NamesLastSuccess(s.note.value))
  {
    RunIsSound(cfg, events);
    hide Tries, Untried, NoChannelTwice, NamesLastSuccess, Sound, Appended, Recorded, RowsInOrder, AllRecorded;
    if |events| > 0 {
      RunIsSound(cfg, events[..|events| - 1]);
      LivingRunIsSound(cfg, events[..|events| - 1]);
      if Run(cfg, events[..|events| - 1]).note.Some? {
        NothingLost(cfg, Run(cfg, events[..|events| - 1]));
      }
      assert Lives(events[|events| - 1]);
    }
  }

  lemma NothingLost(cfg: Config, s: State)
    requires Sound(cfg, s) && s.lost == multiset{} && s.note.Some?
    ensures AllRecorded(s, s.note.value)
  {
  }

  // ---- escalation ends -----------------------------------------------------------------------------------------

  lemma ChannelsAreFirst(providers: seq<Provider>, t: seq<Attempt>)
    requires IsSend(providers, t)
    ensures ChannelsIn(t) == FirstChannels(providers, |t|)
  {
  }

  lemma ResultCarries(t: seq<Attempt>)
    ensures ResultOf(t).attempts == t
  {
  }

  /**
   An escalation either changes nothing, or calls the first of the untried providers, at least one, and
   leaves exactly the others untried.
   */
  lemma EscalationShrinks(cfg: Config, s: State, ask: Provider -> Answer)
    requires OneChannelEach(cfg.chain) && Honest(cfg.chain, ask)
    ensures var s' := Do(cfg, s, Escalate(ask, AtEnd));
            if Paths(cfg, s) == [] then s' == s
            else
              var untried, called := Untried(cfg.chain, Tried(s.note.value.rows)), |s'.calls| - |s.calls|;
              && s'.note.Some? && s'.note.value.logical == s.note.value.logical
              && 1 <= called <= |untried| && s'.calls[..|s.calls|] == s.calls
              && (forall i :: 0 <= i < called ==>
                   s'.calls[|s.calls| + i] == Call(s.note.value.logical, InferChannel(untried[i])))
              && Untried(cfg.chain, Tried(s'.note.value.rows)) == untried[called..]
  {
    hide InferChannel, Tries, OneChannelEach, Honest, Untried, Tried, RowsOf, ResultOf;
    if Paths(cfg, s) != [] {
      var tried, paths, t := Tried(s.note.value.rows), Paths(cfg, s), Tries(Paths(cfg, s), ask);
      PathsAreUntried(cfg, s, ask);
      TriedOf(s.note.value.rows, t, MaxNo(s.note.value.rows));
      ChannelsAreFirst(paths, t);
      hide MaxNo, FirstChannels, ChannelsIn;
      UntriedOneChannelEach(cfg.chain, tried);
      UntriedShrinks(cfg.chain, tried, ChannelsIn(t));
      UntriedAfterFirst(paths, |t|);
      assert Views(ResultOf(t)) == t by {
        ResultCarries(t);
      }
    }
  }

  /**
   However often receipts fail, escalations fire and processes die, one logical message is sent at most once a
   provider, and once a provider more for each send of it whose record was lost.
   */
  lemma EscalationIsBounded(cfg: Config, events: seq<Event>, logical: nat)
    requires OneChannelRun(cfg, events)
    ensures var s := Run(cfg, events); |CallsFor(s.calls, logical)| <= |cfg.chain| * (1 + s.lost[logical])
  {
    hide Run, CallsFor, NoteSound, NoChannelTwice, OneChannelRun;
    RunIsSound(cfg, events);
  }

  // ---- chains whose channels cannot be read -----------------------------------------------------------------------

  /**
   With the default chain an enabled escalation never sends: on every message a receipt has not confirmed it
   raises, whatever the settings of the chain.
   */
  lemma DefaultChainRaises(settings: ChainSettings, s: State, ask: Provider -> Answer, stop: Stop)
    ensures var cfg := Config(DefaultChain(settings), true);
            && (s.note.Some? && !IsConfirmed(s.note.value) ==> Raises(cfg, s))
            && Do(cfg, s, Escalate(ask, stop)) == s
  {
    DefaultChainChannels(settings);
    hide AllDeclared, DefaultChain;
  }

  // ---- the notification as the code updates it ---------------------------------------------------------------------

  class OnTheWayMessage {
    var status: Receipts.Status
    var channel: string
    var mid: string
    var logical: nat
    var sentAt: Option<Time>
    var rows: seq<AttemptRow>
    var calls: seq<Call>
    var next: nat

    /** Created at the commit of the start, under a new logical message id. */
    constructor (id: nat)
      ensures Snapshot() == Note(Receipts.Queued, "", "", id, []) && sentAt == None && calls == [] && next == id + 1
    {
      status, channel, mid, logical, sentAt, rows := Receipts.Queued, "", "", id, None, [];
      calls, next := [], id + 1;
    }

    ghost function Snapshot(): Note
      reads this
    {
      Note(status, channel, mid, logical, rows)
    }

    /** The state of a run, without what only runs remember. */
    ghost function Now(token: bool): State
      reads this
    {
      State(Some(Snapshot()), token, calls, next, multiset{}, {}, false)
    }

    method RecordAttempts(result: SendResult)
      modifies this`rows
      ensures rows == RowsOf(Views(result), 0)
    {
      rows := [];
      rows := RowsOf(Views(result), 0);
    }

    method AppendAttempts(result: SendResult)
      modifies this`rows
      ensures rows == old(rows) + RowsOf(Views(result), MaxNo(old(rows)))
    {
      var start := MaxNo(rows);
      rows := rows + RowsOf(Views(result), start);
    }

    /** `_send_and_record`, from the provider's answer on, be it a chain or a single-channel provider. */
    method RecordResult(result: SendResult, now: Time)
      modifies this`status, this`channel, this`mid, this`sentAt, this`rows
      ensures Snapshot() == Recorded(old(Snapshot()), result)
      ensures sentAt == if status == Receipts.Sent then Some(now) else None
    {
      var winner := FirstOk(result.attempts);
      var ok;
      if result.attempts != [] {
        ok := winner.Some?;
        channel := if winner.Some? then winner.value.channel else "";
        mid := if winner.Some? then OrEmpty(winner.value.mid) else "";
      } else {
        ok := result.ok;
        channel := result.channel;
        mid := OrEmpty(result.mid);
      }
      status := if ok then Receipts.Sent else Receipts.Failed;
      sentAt := if ok then Some(now) else None;
      RecordAttempts(result);
    }

    /** `_send_and_record` over a chain. */
    method SendAndRecord(chain: seq<Provider>, ask: Provider -> Answer, now: Time) returns (result: SendResult)
      modifies this`status, this`channel, this`mid, this`sentAt, this`rows, this`calls
      ensures result == ResultOf(Tries(chain, ask))
      ensures Snapshot() == Recorded(old(Snapshot()), result)
      ensures sentAt == if status == Receipts.Sent then Some(now) else None
      ensures calls == old(calls) + CallsOf(logical, Tries(chain, ask))
    {
      result := SendText(chain, ask);
      ResultCarries(Tries(chain, ask));
      calls := calls + CallsOf(logical, result.attempts);
      RecordResult(result, now);
    }

    /** `_schedule_escalation_if_pending`: whether a check is scheduled; no answer is the exception. */
    method SchedulesEscalation(cfg: Config) returns (scheduled: Option<bool>)
      ensures scheduled == None <==> cfg.escalation && !AllDeclared(cfg.chain)
      ensures scheduled == Some(true) <==> HasNext(cfg)
    {
      if !cfg.escalation {
        return Some(false);
      }
      var paths := UntriedChainPaths(cfg.chain, Tried(rows));
      scheduled := if paths.None? then None else Some(paths.value != []);
    }

    /** A provider of the chain is left to escalate to. */
    ghost predicate HasNext(cfg: Config)
      reads this
    {
      cfg.escalation && AllDeclared(cfg.chain) && Untried(cfg.chain, Tried(rows)) != []
    }

    /**
     The rest of `start_delivery` for a notification just created: the message goes out and is recorded; then
     looking for channels to escalate to raises where one cannot be read, and the caller sees a failure.
     */
    method FinishStart(cfg: Config, ask: Provider -> Answer, now: Time) returns (scheduled: Option<bool>)
      requires cfg.chain != []
      modifies this`status, this`channel, this`mid, this`sentAt, this`rows, this`calls
      ensures Snapshot() == Recorded(old(Snapshot()), ResultOf(Tries(cfg.chain, ask)))
      ensures |calls| > |old(calls)| && calls == old(calls) + CallsOf(logical, Tries(cfg.chain, ask))
      ensures scheduled == None <==> cfg.escalation && !AllDeclared(cfg.chain)
      ensures scheduled == Some(true) <==> HasNext(cfg)
    {
      var _ := SendAndRecord(cfg.chain, ask, now);
      TriesStopAtSuccess(cfg.chain, ask);
      scheduled := SchedulesEscalation(cfg);
    }

    /** `escalate_delivery`; no answer is the exception of a provider without a channel. */
    method EscalateDelivery(cfg: Config, token: bool, ask: Provider -> Answer, now: Time)
      returns (accepted: Option<bool>, scheduled: bool)
      modifies this`status, this`channel, this`mid, this`sentAt, this`rows, this`calls
      ensures Now(token) == Do(cfg, old(Now(token)), Escalate(ask, AtEnd)).(blind := {})
      ensures accepted == None <==> Raises(cfg, old(Now(token)))
      ensures accepted == Some(true) <==> old(Paths(cfg, Now(token))) != [] && ResultOf(Tries(old(Paths(cfg, Now(token))), ask)).ok
      ensures accepted == Some(true) ==> |calls| > |old(calls)| && status == Receipts.Sent
      ensures accepted == Some(false) ==> status == old(status) && channel == old(channel) && mid == old(mid)
      ensures old(status) == Receipts.Delivered || old(status) == Receipts.Read ==> accepted == Some(false) && calls == old(calls)
      ensures sentAt == if accepted == Some(true) then Some(now) else old(sentAt)
      ensures scheduled <==> accepted == Some(true) && HasNext(cfg)
    {
      if !cfg.escalation {
        return Some(false), false;
      }
      if status == Receipts.Delivered || status == Receipts.Read {
        return Some(false), false;
      }
      var paths := UntriedChainPaths(cfg.chain, Tried(rows));
      if paths.None? {
        return None, false;
      }
      if paths.value == [] || !token {
        return Some(false), false;
      }
      accepted, scheduled := EscalateAlong(cfg, token, paths.value, ask, now);
    }

    /** The rest of it, with providers to call. */
    method EscalateAlong(cfg: Config, token: bool, paths: seq<Provider>, ask: Provider -> Answer, now: Time)
      returns (accepted: Option<bool>, scheduled: bool)
      requires paths == Paths(cfg, Now(token)) && paths != []
      modifies this`status, this`channel, this`mid, this`sentAt, this`rows, this`calls
      ensures Now(token) == EscalateTo(old(Now(token)), Tries(paths, ask), AtEnd).(blind := {})
      ensures accepted == Some(ResultOf(Tries(paths, ask)).ok) && |calls| > |old(calls)|
      ensures accepted == Some(true) ==> status == Receipts.Sent
      ensures accepted == Some(false) ==> status == old(status) && channel == old(channel) && mid == old(mid)
      ensures sentAt == if accepted == Some(true) then Some(now) else old(sentAt)
      ensures scheduled <==> accepted == Some(true) && HasNext(cfg)
    {
      hide Paths, Tries, HasNext;
      assert cfg.escalation && AllDeclared(cfg.chain) by {
        HasPaths(cfg, Now(token));
      }
      TriesStopAtSuccess(paths, ask);
      var result := SendText(paths, ask);
      ResultCarries(Tries(paths, ask));
      calls := calls + CallsOf(logical, result.attempts);
      AppendAttempts(result);
      scheduled := false;
      if result.ok {
        channel, mid, status, sentAt := result.channel, OrEmpty(result.mid), Receipts.Sent, Some(now);
        var next := SchedulesEscalation(cfg);
        scheduled := next == Some(true);
      }
      accepted := Some(result.ok);
    }

    /** `resend_on_the_way` past the quotas; `sends` is whether the process lives to call the provider. */
    method Resend(cfg: Config, token: bool, sends: bool, ask: Provider -> Answer, now: Time)
      modifies this
      ensures Now(token) == Do(cfg, old(Now(token)), Event.Resend(if sends then Done(ask) else NotCalled))
      ensures sentAt == if !token || !sends then old(sentAt) else if status == Receipts.Sent then Some(now) else None
    {
      if !token {
        return;
      }
      logical, next := next, next + 1;
      status := Receipts.Queued;
      if sends {
        var _ := SendAndRecord(cfg.chain, ask, now);
      }
    }
  }

  lemma HasPaths(cfg: Config, s: State)
    requires Paths(cfg, s) != []
    ensures cfg.escalation && AllDeclared(cfg.chain)
  {
  }
}
