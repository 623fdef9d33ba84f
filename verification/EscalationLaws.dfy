/**
 What the steps of the on-the-way message mean, with statuses, channels and answers spelled out: who is called, what
 is recorded, and that a message a report has confirmed is never escalated.
 */
module EscalationLaws {
  import opened Prelude
  import opened Chains
  import opened Escalation
  import Receipts

  // ---- a confirmed message ----------------------------------------------------------------------------------------

  /** A report has said that it arrived, or was read. */
  predicate Arrived(s: State) {
    s.note.Some? && (s.note.value.status == Receipts.Delivered || s.note.value.status == Receipts.Read)
  }

  lemma ArrivedIsLeftAlone(cfg: Config, s: State, ask: Provider -> Answer, stop: Stop)
    requires s.note.Some? && (s.note.value.status == Receipts.Delivered || s.note.value.status == Receipts.Read)
    ensures Do(cfg, s, Escalate(ask, stop)) == s
  {
  }

  lemma ArrivedStays(cfg: Config, s: State, e: Event)
    requires Arrived(s) && !e.Resend?
    ensures var s' := Do(cfg, s, e); Arrived(s') && s'.calls == s.calls && s'.note.value.logical == s.note.value.logical
  {
  }

  /** Once a report has confirmed a message, nothing but a resend calls a provider again, whatever fires or arrives. */
  lemma {:induction false} ArrivedIsQuiet(cfg: Config, before: seq<Event>, after: seq<Event>)
    requires Arrived(Run(cfg, before)) && forall i :: 0 <= i < |after| ==> !after[i].Resend?
    ensures var s, s' := Run(cfg, before), Run(cfg, before + after);
            Arrived(s') && s'.calls == s.calls && s'.note.value.logical == s.note.value.logical
    decreases |after|
  {
    hide Do, Arrived;
    if after == [] {
      assert before + after == before;
    } else {
      var front := after[..|after| - 1];
      ArrivedIsQuiet(cfg, before, front);
      assert (before + after)[..|before + after| - 1] == before + front;
      ArrivedStays(cfg, Run(cfg, before + front), after[|after| - 1]);
    }
  }

  // ---- when an escalation calls -------------------------------------------------------------------------------------

  /**
   An escalation calls a provider exactly when it is switched on, the message is out but not confirmed, every class of
   the chain has a channel, the tracking token is there, and some channel of the chain has no attempt.
   */
  lemma EscalationCallsIff(cfg: Config, s: State, ask: Provider -> Answer, stop: Stop)
    requires IsChain(cfg) && Honest(cfg.chain, ask)
    ensures |Do(cfg, s, Escalate(ask, stop)).calls| > |s.calls|
       <==> && cfg.escalation && s.note.Some? && s.token
            && s.note.value.status != Receipts.Delivered && s.note.value.status != Receipts.Read
            && (forall p :: p in cfg.chain ==> p.declared.Some?)
            && exists p :: p in cfg.chain && forall i :: 0 <= i < |s.note.value.rows| ==> p.declared != Some(s.note.value.rows[i].channel)
  {
    var paths := Paths(cfg, s);
    if AllDeclared(cfg.chain) && s.note.Some? {
      var tried := Tried(s.note.value.rows);
      UntriedMembers(cfg.chain, tried);
      if Untried(cfg.chain, tried) != [] {
        var p := Untried(cfg.chain, tried)[0];
        assert p in cfg.chain && p.declared.value !in tried;
        forall i | 0 <= i < |s.note.value.rows| ensures p.declared != Some(s.note.value.rows[i].channel) {
          assert s.note.value.rows[i].channel in tried;
        }
      }
      if p :| p in cfg.chain && forall i :: 0 <= i < |s.note.value.rows| ==> p.declared != Some(s.note.value.rows[i].channel) {
        assert p.declared.value !in tried;
        assert p in Untried(cfg.chain, tried);
      }
    }
    if paths != [] {
      PathsAreUntried(cfg, s, ask);
    }
    hide Tries, Untried, Honest, OneChannelEach;
  }

  // ---- what a send records ----------------------------------------------------------------------------------------------

  /** The channel an attempt goes under: the provider's answer, else its class, named or by its name. */
  lemma ChannelMeans(p: Provider, a: Answer)
    ensures a.channel != "" ==> AttemptOf(p, a).channel == a.channel
    ensures a.channel == "" && p.declared.Some? && p.declared.value != "" ==> AttemptOf(p, a).channel == p.declared.value
    ensures forall stem :: a.channel == "" && (p.declared == None || p.declared == Some("")) && p.className == stem + "Provider" ==>
              AttemptOf(p, a).channel == Lower(stem)
    ensures AttemptOf(p, a).ok == a.ok && AttemptOf(p, a).mid == a.mid
  {
    forall stem | p.className == stem + "Provider" ensures p.className[..|p.className| - 8] == stem {
    }
  }

  lemma LowerMeans(s: string)
    ensures |Lower(s)| == |s|
    ensures forall i :: 0 <= i < |s| ==>
              (if 'A' <= s[i] <= 'Z' then 'a' <= Lower(s)[i] <= 'z' && Lower(s)[i] - 'a' == s[i] - 'A' else Lower(s)[i] == s[i])
  {
  }

  /** The first provider that accepts. */
  predicate Wins(providers: seq<Provider>, ask: Provider -> Answer, k: nat) {
    k < |providers| && ask(providers[k]).ok && forall i :: 0 <= i < k ==> !ask(providers[i]).ok
  }

  /**
   A send down a chain succeeds exactly when a provider accepts; then it tried the providers up to the first that did,
   and carries that one's message id and channel; else it tried them all.
   */
  lemma SendMeans(providers: seq<Provider>, ask: Provider -> Answer)
    ensures var t, r := Tries(providers, ask), ResultOf(Tries(providers, ask));
            && (forall i :: 0 <= i < |t| ==> i < |providers| && t[i] == AttemptOf(providers[i], ask(providers[i])))
            && (r.ok <==> exists p :: p in providers && ask(p).ok)
            && (forall k: nat :: Wins(providers, ask, k) ==>
                 |t| == k + 1 && r.mid == ask(providers[k]).mid && r.channel == AttemptOf(providers[k], ask(providers[k])).channel)
            && (!r.ok ==> |t| == |providers| && r.mid == None && r.channel == "")
            && r.attempts == t
  {
    TriesStopAtSuccess(providers, ask);
    hide Tries, InferChannel, Wins;
    var t := Tries(providers, ask);
    forall k: nat | Wins(providers, ask, k) ensures |t| == k + 1 && t[k].ok {
      WinnerEnds(providers, ask, t, k);
    }
    SomeoneAccepts(providers, ask, t);
  }

  /** The attempts of a send, as far as who accepted goes. */
  predicate Asked(providers: seq<Provider>, ask: Provider -> Answer, t: seq<Attempt>) {
    && |t| <= |providers| && (forall i :: 0 <= i < |t| ==> t[i].ok == ask(providers[i]).ok)
    && (forall i :: 0 <= i < |t| - 1 ==> !t[i].ok)
    && ((t != [] && t[|t| - 1].ok) || |t| == |providers|)
  }

  lemma WinnerEnds(providers: seq<Provider>, ask: Provider -> Answer, t: seq<Attempt>, k: nat)
    requires Asked(providers, ask, t) && Wins(providers, ask, k)
    ensures |t| == k + 1 && t[k].ok
  {
    assert k < |t| ==> t[k].ok;
  }

  lemma SomeoneAccepts(providers: seq<Provider>, ask: Provider -> Answer, t: seq<Attempt>)
    requires Asked(providers, ask, t)
    ensures ResultOf(t).ok <==> exists p :: p in providers && ask(p).ok
    ensures !ResultOf(t).ok ==> |t| == |providers|
  {
    if p :| p in providers && ask(p).ok {
      var j :| 0 <= j < |providers| && providers[j] == p;
      assert j < |t| ==> t[j].ok;
    }
  }

  /** A result with attempts: the first success decides, and all of them are kept in their order. */
  lemma RecordedMeans(n: Note, r: SendResult)
    requires r.attempts != []
    ensures var n' := Recorded(n, r);
            && n'.logical == n.logical && |n'.rows| == |r.attempts|
            && (forall i :: 0 <= i < |r.attempts| ==>
                 n'.rows[i] == AttemptRow(r.attempts[i].channel, r.attempts[i].ok, OrEmpty(r.attempts[i].mid), i + 1))
            && (n'.status == Receipts.Sent <==> exists a :: a in r.attempts && a.ok)
            && (n'.status != Receipts.Sent ==> n'.status == Receipts.Failed && n'.channel == "" && n'.mid == "")
            && (forall k :: 0 <= k < |r.attempts| && r.attempts[k].ok && (forall i :: 0 <= i < k ==> !r.attempts[i].ok) ==>
                 n'.channel == r.attempts[k].channel && n'.mid == OrEmpty(r.attempts[k].mid))
  {
    FirstOkMeans(r.attempts);
    hide FirstOk;
  }

  lemma {:induction false} FirstOkMeans(t: seq<Attempt>)
    ensures FirstOk(t).Some? <==> exists a :: a in t && a.ok
    ensures forall k :: 0 <= k < |t| && t[k].ok && (forall i :: 0 <= i < k ==> !t[i].ok) ==> FirstOk(t) == Some(t[k])
  {
    if t != [] {
      FirstOkMeans(t[1..]);
      forall k | 0 <= k < |t| && t[k].ok && (forall i :: 0 <= i < k ==> !t[i].ok) ensures FirstOk(t) == Some(t[k]) {
        if k > 0 {
          assert t[1..][k - 1] == t[k];
        }
      }
    }
  }

  /** A result without attempts is recorded as its only attempt. */
  lemma RecordedOneMeans(n: Note, r: SendResult)
    requires r.attempts == []
    ensures Recorded(n, r)
         == Note(if r.ok then Receipts.Sent else Receipts.Failed, r.channel, OrEmpty(r.mid), n.logical,
                 [AttemptRow(r.channel, r.ok, OrEmpty(r.mid), 1)])
  {
  }

  /** `OrEmpty` is the message id, or no text where the provider gave none. */
  lemma OrEmptyMeans(s: string)
    ensures OrEmpty(Some(s)) == s && OrEmpty(None) == ""
  {
  }

  // ---- the events of a run ----------------------------------------------------------------------------------------------

  /** A start that gets to its end: the message is the first, its status says whether a provider of the chain accepted. */
  lemma StartMeans(cfg: Config, s: State, ask: Provider -> Answer)
    requires cfg.chain != []
    ensures var s' := Do(cfg, s, Start(Done(ask)));
            if s.note.Some? then s' == s
            else
              && s'.note.Some? && s'.token && s'.next == s.next + 1 && s'.note.value.logical == s.next
              && (s'.note.value.status == Receipts.Sent <==> exists p :: p in cfg.chain && ask(p).ok)
              && (s'.note.value.status == Receipts.Sent || s'.note.value.status == Receipts.Failed)
              && s'.calls == s.calls + CallsOf(s.next, Tries(cfg.chain, ask))
  {
    DoneMeans(cfg, Note(Receipts.Queued, "", "", s.next, []), ask);
    hide Tries, Recorded, ResultOf;
  }

  lemma DoneMeans(cfg: Config, n: Note, ask: Provider -> Answer)
    requires cfg.chain != []
    ensures var n' := Recorded(n, ResultOf(Tries(cfg.chain, ask)));
            && n'.logical == n.logical
            && (n'.status == Receipts.Sent <==> exists p :: p in cfg.chain && ask(p).ok)
            && (n'.status == Receipts.Sent || n'.status == Receipts.Failed)
  {
    SendMeans(cfg.chain, ask);
    TriesStopAtSuccess(cfg.chain, ask);
    RecordedMeans(n, ResultOf(Tries(cfg.chain, ask)));
    SomeTryWon(Tries(cfg.chain, ask));
    hide Tries, Recorded, InferChannel;
  }

  lemma SomeTryWon(t: seq<Attempt>)
    requires forall i :: 0 <= i < |t| - 1 ==> !t[i].ok
    ensures ResultOf(t).ok <==> exists a :: a in t && a.ok
  {
  }

  /** A resend that gets to its end is a new message; one that dies first leaves it queued. */
  lemma ResendMeans(cfg: Config, s: State, ask: Provider -> Answer)
    requires cfg.chain != []
    ensures var s', waits := Do(cfg, s, Resend(Done(ask))), Do(cfg, s, Resend(NotCalled));
            if s.note.None? || !s.token then s' == s && waits == s
            else
              && s'.note.Some? && s'.next == s.next + 1 && s'.note.value.logical == s.next
              && (s'.note.value.status == Receipts.Sent <==> exists p :: p in cfg.chain && ask(p).ok)
              && (s'.note.value.status == Receipts.Sent || s'.note.value.status == Receipts.Failed)
              && s'.calls == s.calls + CallsOf(s.next, Tries(cfg.chain, ask))
              && waits.note == Some(s.note.value.(logical := s.next, status := Receipts.Queued)) && waits.calls == s.calls
  {
    if s.note.Some? {
      DoneMeans(cfg, s.note.value.(logical := s.next, status := Receipts.Queued), ask);
    }
    hide Tries, Recorded, ResultOf;
  }

  /** A report moves the message it names, and no other; taking the link away changes nothing else. */
  lemma ReceiptMeans(cfg: Config, s: State, r: Receipts.Report)
    ensures var s' := Do(cfg, s, Receipt(r));
            && s'.calls == s.calls && s'.token == s.token && s'.next == s.next
            && (s.note.Some? && r.mid != "" && r.mid == s.note.value.mid ==>
                 s'.note == Some(s.note.value.(status := Receipts.Offer(s.note.value.status, r))))
            && (s.note.None? || r.mid == "" || r.mid != s.note.value.mid ==> s' == s)
    ensures Do(cfg, s, DropToken) == s.(token := false)
  {
  }

  /** An escalation that gets to its end and is accepted: the winner names the message, which is sent again. */
  lemma AppendedMeans(n: Note, r: SendResult)
    ensures var n' := Appended(n, r);
            && n'.logical == n.logical
            && (r.ok ==> n'.status == Receipts.Sent && n'.channel == r.channel && n'.mid == OrEmpty(r.mid))
            && (!r.ok ==> n'.status == n.status && n'.channel == n.channel && n'.mid == n.mid)
            && n.rows <= n'.rows
            && (r.attempts != [] ==>
                 |n'.rows| == |n.rows| + |r.attempts|
                 && forall i :: 0 <= i < |r.attempts| ==>
                      n'.rows[|n.rows| + i]
                      == AttemptRow(r.attempts[i].channel, r.attempts[i].ok, OrEmpty(r.attempts[i].mid), MaxNo(n.rows) + i + 1))
            && (r.attempts == [] ==> n'.rows == n.rows + [AttemptRow(r.channel, r.ok, OrEmpty(r.mid), MaxNo(n.rows) + 1)])
  {
    hide MaxNo, OrEmpty;
    var more := RowsOf(Views(r), MaxNo(n.rows));
    assert Appended(n, r).rows == n.rows + more;
    hide Appended;
    assert forall i :: 0 <= i < |more| ==> (n.rows + more)[|n.rows| + i] == more[i];
  }

  // ---- the chain the settings give ---------------------------------------------------------------------------------------

  /** The place of each class: Telegram, Viber, WhatsApp, SMS. */
  function PlaceOf(className: string): nat {
    if className == "TelegramProvider" then 0
    else if className == "ViberProvider" then 1
    else if className == "WhatsAppProvider" then 2
    else 3
  }

  /**
   The default chain: SMS alone or Viber first, WhatsApp and the SMS fallback after Viber where they are switched on,
   and Telegram before all where it is; each at most once, and no other class.
   */
  lemma DefaultChainMeans(cfg: ChainSettings)
    ensures var chain := DefaultChain(cfg);
            && ((exists p :: p in chain && p.className == "TelegramProvider") <==> cfg.telegram)
            && ((exists p :: p in chain && p.className == "ViberProvider") <==> cfg.infobipChannel != "sms")
            && ((exists p :: p in chain && p.className == "WhatsAppProvider") <==> cfg.infobipChannel != "sms" && cfg.whatsapp)
            && ((exists p :: p in chain && p.className == "SmsProvider") <==> cfg.infobipChannel == "sms" || cfg.smsFallback)
            && (forall i, j :: 0 <= i < j < |chain| ==> PlaceOf(chain[i].className) < PlaceOf(chain[j].className))
  {
    ClassNames();
    var chain := DefaultChain(cfg);
    ChainMembers(cfg);
    hide PlaceOf, DefaultChain;
    assert cfg.telegram ==> TELEGRAM in chain;
    assert cfg.infobipChannel != "sms" ==> VIBER in chain;
    assert cfg.infobipChannel != "sms" && cfg.whatsapp ==> WHATSAPP in chain;
    assert cfg.infobipChannel == "sms" || cfg.smsFallback ==> SMS in chain;
    ChainOrder(cfg);
  }

  lemma ChainMembers(cfg: ChainSettings)
    ensures forall p :: p in DefaultChain(cfg) <==>
              || (p == TELEGRAM && cfg.telegram) || (p == VIBER && cfg.infobipChannel != "sms")
              || (p == WHATSAPP && cfg.infobipChannel != "sms" && cfg.whatsapp)
              || (p == SMS && (cfg.infobipChannel == "sms" || cfg.smsFallback))
  {
  }

  lemma ChainOrder(cfg: ChainSettings)
    ensures var chain := DefaultChain(cfg); forall i, j :: 0 <= i < j < |chain| ==> PlaceOf(chain[i].className) < PlaceOf(chain[j].className)
  {
    ClassNames();
    hide PlaceOf;
  }

  lemma ClassNames()
    ensures TELEGRAM.className == "TelegramProvider" && VIBER.className == "ViberProvider"
    ensures WHATSAPP.className == "WhatsAppProvider" && SMS.className == "SmsProvider"
    ensures PlaceOf(TELEGRAM.className) == 0 && PlaceOf(VIBER.className) == 1
    ensures PlaceOf(WHATSAPP.className) == 2 && PlaceOf(SMS.className) == 3
    ensures |"TelegramProvider"| != |"ViberProvider"| && |"WhatsAppProvider"| != |"ViberProvider"| && |"SmsProvider"| != |"ViberProvider"|
    ensures "TelegramProvider" != "WhatsAppProvider" && |"SmsProvider"| != |"TelegramProvider"| && |"SmsProvider"| != |"WhatsAppProvider"|
  {
    assert "TelegramProvider"[0] == 'T' && "WhatsAppProvider"[0] == 'W';
  }
}
