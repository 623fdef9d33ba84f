/** integrations/chained.py and integrations/providers.py: a message goes down a chain of one-channel providers. */
module Chains {
  import opened Prelude
  import Text

  /** A provider class; `declared` is its `channel` attribute, where it has one. */
  datatype Provider = Provider(className: string, declared: Option<string>)

  /** What a provider says of one send. */
  datatype Answer = Answer(ok: bool, channel: string, mid: Option<string>)

  datatype Attempt = Attempt(channel: string, ok: bool, mid: Option<string>)

  datatype SendResult = SendResult(ok: bool, mid: Option<string>, channel: string, attempts: seq<Attempt>)

  // ---- channels ------------------------------------------------------------------------------------

  function LowerChar(c: char): char {
    if 'A' <= c <= 'Z' then c + 32 as char else c
  }

  function Lower(s: string): string {
    seq(|s|, i requires 0 <= i < |s| => LowerChar(s[i]))
  }

  /** `_infer_channel` */
  function InferChannel(p: Provider): string {
    if p.declared.Some? && p.declared.value != "" then p.declared.value
    else Lower(if Text.EndsWith(p.className, "Provider") then p.className[..|p.className| - 8] else p.className)
  }

  function AttemptOf(p: Provider, a: Answer): Attempt {
    Attempt(if a.channel != "" then a.channel else InferChannel(p), a.ok, a.mid)
  }

  // ---- one send down a chain --------------------------------------------------------------------------

  /** The providers tried, in order, up to and with the first that accepts the message. */
  function Tries(providers: seq<Provider>, ask: Provider -> Answer): seq<Attempt> {
    if providers == [] then []
    else
      var a := AttemptOf(providers[0], ask(providers[0]));
      if a.ok then [a] else [a] + Tries(providers[1..], ask)
  }

  function ResultOf(attempts: seq<Attempt>): SendResult {
    if attempts != [] && attempts[|attempts| - 1].ok
    then SendResult(true, attempts[|attempts| - 1].mid, attempts[|attempts| - 1].channel, attempts)
    else SendResult(false, None, "", attempts)
  }

  /** A send tries a prefix of the chain, one attempt a provider; only the last can succeed, and it does unless
      the chain ran out. */
  lemma {:induction false} TriesStopAtSuccess(providers: seq<Provider>, ask: Provider -> Answer)
    ensures var t := Tries(providers, ask);
            && |t| <= |providers|
            && (providers != [] ==> t != [])
            && (forall i :: 0 <= i < |t| ==> t[i] == AttemptOf(providers[i], ask(providers[i])))
            && (forall i :: 0 <= i < |t| - 1 ==> !t[i].ok)
            && ((t != [] && t[|t| - 1].ok) || |t| == |providers|)
  {
    if providers != [] && !ask(providers[0]).ok {
      TriesStopAtSuccess(providers[1..], ask);
    }
  }

  lemma {:induction false} TriesSplit(front: seq<Provider>, rest: seq<Provider>, ask: Provider -> Answer)
    requires forall p :: p in front ==> !ask(p).ok
    ensures Tries(front + rest, ask) == Tries(front, ask) + Tries(rest, ask)
  {
    if front == [] {
      assert front + rest == rest;
    } else {
      TriesSplit(front[1..], rest, ask);
      assert (front + rest)[1..] == front[1..] + rest;
    }
  }

  lemma TriesNone(ask: Provider -> Answer)
    ensures Tries([], ask) == []
  {
  }

  lemma TriesOne(providers: seq<Provider>, ask: Provider -> Answer)
    requires providers != [] && (ask(providers[0]).ok || |providers| == 1)
    ensures Tries(providers, ask) == [AttemptOf(providers[0], ask(providers[0]))]
  {
    if |providers| == 1 {
      assert providers[1..] == [];
    }
  }

  /** `ChainedMessagingProvider.send_text` */
  method SendText(providers: seq<Provider>, ask: Provider -> Answer) returns (result: SendResult)
    ensures result == ResultOf(Tries(providers, ask))
  {
    hide Tries, InferChannel;
    TriesNone(ask);
    var attempts: seq<Attempt> := [];
    var i := 0;
    while i < |providers|
      invariant 0 <= i <= |providers|
      invariant forall p :: p in providers[..i] ==> !ask(p).ok
      invariant attempts == Tries(providers[..i], ask)
      invariant forall k :: 0 <= k < |attempts| ==> !attempts[k].ok
    {
      var provider := providers[i];
      var answer := ask(provider);
      var channel := if answer.channel != "" then answer.channel else InferChannel(provider);
      attempts := attempts + [Attempt(channel, answer.ok, answer.mid)];
      TriesSplit(providers[..i], [provider], ask);
      TriesOne([provider], ask);
      assert providers[..i + 1] == providers[..i] + [provider];
      if answer.ok {
        assert providers == providers[..i] + providers[i..];
        TriesSplit(providers[..i], providers[i..], ask);
        TriesOne(providers[i..], ask);
        return SendResult(true, answer.mid, channel, attempts);
      }
      i := i + 1;
    }
    assert providers[..i] == providers;
    result := SendResult(false, None, "", attempts);
  }

  // ---- which chain ---------------------------------------------------------------------------------------

  datatype ChainSettings = ChainSettings(infobipChannel: string, whatsapp: bool, smsFallback: bool, telegram: bool)

  const TELEGRAM := Provider("TelegramProvider", Some("telegram"))
  const VIBER := Provider("ViberProvider", None)
  const WHATSAPP := Provider("WhatsAppProvider", Some("whatsapp"))
  const SMS := Provider("SmsProvider", None)

  function If(wanted: bool, p: Provider): seq<Provider> {
    if wanted then [p] else []
  }

  /** Every provider in its fixed place, when its setting wants it. */
  function DefaultChain(cfg: ChainSettings): seq<Provider> {
    If(cfg.telegram, TELEGRAM)
    + If(cfg.infobipChannel != "sms", VIBER)
    + If(cfg.infobipChannel != "sms" && cfg.whatsapp, WHATSAPP)
    + If(cfg.infobipChannel == "sms" || cfg.smsFallback, SMS)
  }

  /** `_default_chain_paths` */
  method DefaultChainPaths(cfg: ChainSettings) returns (chain: seq<Provider>)
    ensures chain == DefaultChain(cfg)
  {
    if cfg.infobipChannel == "sms" {
      chain := [SMS];
    } else {
      chain := [VIBER];
      if cfg.whatsapp {
        chain := chain + [WHATSAPP];
      }
      if cfg.smsFallback {
        chain := chain + [SMS];
      }
    }
    if cfg.telegram {
      chain := [TELEGRAM] + chain;
    }
  }

  /** Whether `chain_channel_paths` can read every provider's channel; it raises otherwise. */
  predicate AllDeclared(chain: seq<Provider>) {
    forall i :: 0 <= i < |chain| ==> chain[i].declared.Some?
  }

  /** Each provider has a channel of its own. */
  ghost predicate OneChannelEach(chain: seq<Provider>) {
    && (forall i :: 0 <= i < |chain| ==> chain[i].declared != Some(""))
    && forall i, j :: 0 <= i < j < |chain| ==> InferChannel(chain[i]) != InferChannel(chain[j])
  }

  /** A provider answers with its own channel or none. */
  ghost predicate Honest(chain: seq<Provider>, ask: Provider -> Answer) {
    forall p :: p in chain ==> ask(p).channel == "" || ask(p).channel == InferChannel(p)
  }

  lemma DefaultNames()
    ensures InferChannel(VIBER) != InferChannel(SMS) && InferChannel(VIBER) != InferChannel(WHATSAPP)
    ensures InferChannel(SMS) != InferChannel(WHATSAPP) && InferChannel(TELEGRAM) != InferChannel(VIBER)
    ensures InferChannel(TELEGRAM) != InferChannel(SMS) && InferChannel(TELEGRAM) != InferChannel(WHATSAPP)
  {
  }

  /** The default chain has one channel each, yet the channels of its Viber and SMS classes cannot be read. */
  lemma DefaultChainChannels(cfg: ChainSettings)
    ensures OneChannelEach(DefaultChain(cfg)) && !AllDeclared(DefaultChain(cfg))
  {
    DefaultNames();
    hide InferChannel;
    var chain := DefaultChain(cfg);
    assert chain[if cfg.telegram then 1 else 0].declared.None?;
  }

  /** `_untried_chain_paths`, once the channels are known. */
  function Untried(chain: seq<Provider>, tried: set<string>): seq<Provider>
    requires AllDeclared(chain)
  {
    if chain == [] then []
    else If(chain[0].declared.value !in tried, chain[0]) + Untried(chain[1..], tried)
  }

  /** `chain_channel_paths`: no answer is the exception at the first class without a channel. */
  method ChainChannelPaths(chain: seq<Provider>) returns (r: Option<seq<(string, Provider)>>)
    ensures r.Some? <==> AllDeclared(chain)
    ensures r.Some? ==>
              |r.value| == |chain| && forall i :: 0 <= i < |chain| ==> r.value[i] == (chain[i].declared.value, chain[i])
  {
    var pairs: seq<(string, Provider)> := [];
    for i := 0 to |chain|
      invariant |pairs| == i
      invariant forall k :: 0 <= k < i ==> chain[k].declared.Some? && pairs[k] == (chain[k].declared.value, chain[k])
    {
      if chain[i].declared.None? {
        return None;
      }
      pairs := pairs + [(chain[i].declared.value, chain[i])];
    }
    r := Some(pairs);
  }

  /** `_untried_chain_paths` */
  method UntriedChainPaths(chain: seq<Provider>, tried: set<string>) returns (r: Option<seq<Provider>>)
    ensures r.Some? <==> AllDeclared(chain)
    ensures r.Some? ==> r.value == Untried(chain, tried)
  {
    var pairs := ChainChannelPaths(chain);
    if pairs.None? {
      return None;
    }
    var paths: seq<Provider> := [];
    for i := 0 to |chain|
      invariant paths + Untried(chain[i..], tried) == Untried(chain, tried)
    {
      ghost var rest := Untried(chain[i + 1..], tried);
      assert chain[i..][1..] == chain[i + 1..];
      assert Untried(chain[i..], tried) == If(chain[i].declared.value !in tried, chain[i]) + rest;
      if pairs.value[i].0 !in tried {
        assert paths + ([chain[i]] + rest) == paths + [chain[i]] + rest;
        paths := paths + [pairs.value[i].1];
      } else {
        assert [] + rest == rest;
      }
    }
    assert paths + [] == paths;
    r := Some(paths);
  }

  lemma {:induction false} UntriedMembers(chain: seq<Provider>, tried: set<string>)
    requires AllDeclared(chain)
    ensures forall p :: p in Untried(chain, tried) <==> p in chain && p.declared.Some? && p.declared.value !in tried
    ensures |Untried(chain, tried)| <= |chain|
  {
    if chain != [] {
      UntriedMembers(chain[1..], tried);
    }
  }

  lemma OneChannelFirst(p: Provider, rest: seq<Provider>)
    ensures OneChannelEach([p] + rest)
       <==> p.declared != Some("") && OneChannelEach(rest)
            && forall i :: 0 <= i < |rest| ==> InferChannel(rest[i]) != InferChannel(p)
  {
    hide InferChannel;
    var chain := [p] + rest;
    assert chain[0] == p;
    if OneChannelEach(chain) {
      forall i | 0 <= i < |rest| ensures rest[i].declared != Some("") && InferChannel(rest[i]) != InferChannel(p) {
        assert chain[i + 1] == rest[i];
      }
      forall i, j | 0 <= i < j < |rest| ensures InferChannel(rest[i]) != InferChannel(rest[j]) {
        assert chain[i + 1] == rest[i] && chain[j + 1] == rest[j];
      }
    } else {
      OneChannelMore(p, rest);
    }
  }

  lemma OneChannelMore(p: Provider, rest: seq<Provider>)
    ensures p.declared != Some("") && OneChannelEach(rest) && (forall i :: 0 <= i < |rest| ==> InferChannel(rest[i]) != InferChannel(p))
            ==> OneChannelEach([p] + rest)
  {
    hide InferChannel;
    var chain := [p] + rest;
    if p.declared != Some("") && OneChannelEach(rest) && (forall i :: 0 <= i < |rest| ==> InferChannel(rest[i]) != InferChannel(p)) {
      forall i | 0 <= i < |chain| ensures chain[i].declared != Some("") {
        assert i > 0 ==> chain[i] == rest[i - 1];
      }
      forall i, j | 0 <= i < j < |chain| ensures InferChannel(chain[i]) != InferChannel(chain[j]) {
        assert chain[j] == rest[j - 1];
        assert i > 0 ==> chain[i] == rest[i - 1];
      }
    }
  }

  lemma {:induction false} UntriedOneChannelEach(chain: seq<Provider>, tried: set<string>)
    requires AllDeclared(chain) && OneChannelEach(chain)
    ensures OneChannelEach(Untried(chain, tried)) && AllDeclared(Untried(chain, tried))
  {
    hide InferChannel, OneChannelEach;
    if chain == [] {
      assert Untried(chain, tried) == chain;
    } else {
      var rest := chain[1..];
      assert chain == [chain[0]] + rest;
      OneChannelFirst(chain[0], rest);
      UntriedOneChannelEach(rest, tried);
      UntriedMembers(rest, tried);
      var u := Untried(rest, tried);
      OneChannelFirst(chain[0], u);
      forall i | 0 <= i < |u| ensures InferChannel(u[i]) != InferChannel(chain[0]) {
        assert u[i] in rest;
      }
      assert [] + u == u;
    }
  }

  /** Once more channels have been tried, what is left is what is left of what was left. */
  lemma {:induction false} UntriedShrinks(chain: seq<Provider>, tried: set<string>, more: set<string>)
    requires AllDeclared(chain)
    ensures AllDeclared(Untried(chain, tried))
    ensures Untried(chain, tried + more) == Untried(Untried(chain, tried), more)
  {
    if chain != [] {
      var p, rest := chain[0], chain[1..];
      UntriedShrinks(rest, tried, more);
      assert chain == [p] + rest;
      UntriedFirst(p, rest, tried);
      UntriedFirst(p, rest, tried + more);
      hide Untried;
      if p.declared.value !in tried {
        UntriedFirst(p, Untried(rest, tried), more);
      }
    }
  }

  lemma UntriedFirst(p: Provider, rest: seq<Provider>, tried: set<string>)
    requires AllDeclared([p] + rest)
    ensures p.declared.Some? && AllDeclared(rest)
    ensures Untried([p] + rest, tried)
         == if p.declared.value !in tried then [p] + Untried(rest, tried) else Untried(rest, tried)
  {
    var chain := [p] + rest;
    assert chain[0] == p && chain[1..] == rest;
    assert forall i :: 0 <= i < |rest| ==> rest[i] == chain[i + 1];
    assert [] + Untried(rest, tried) == Untried(rest, tried);
  }

  lemma {:induction false} UntriedNone(chain: seq<Provider>, tried: set<string>)
    requires AllDeclared(chain) && forall i :: 0 <= i < |chain| ==> chain[i].declared.value !in tried
    ensures Untried(chain, tried) == chain
  {
    if chain != [] {
      UntriedNone(chain[1..], tried);
    }
  }

  function FirstChannels(chain: seq<Provider>, k: nat): set<string>
    requires k <= |chain|
  {
    set i | 0 <= i < k :: InferChannel(chain[i])
  }

  /** Trying the first `k` leaves the others. */
  lemma {:induction false} UntriedAfterFirst(chain: seq<Provider>, k: nat)
    requires AllDeclared(chain) && OneChannelEach(chain) && k <= |chain|
    ensures Untried(chain, FirstChannels(chain, k)) == chain[k..]
  {
    hide InferChannel, Untried, OneChannelEach;
    if k == 0 {
      UntriedNone(chain, {});
      assert FirstChannels(chain, 0) == {};
    } else {
      var c, rest := InferChannel(chain[k - 1]), chain[k - 1..];
      UntriedAfterFirst(chain, k - 1);
      assert FirstChannels(chain, k) == FirstChannels(chain, k - 1) + {c};
      hide FirstChannels;
      UntriedShrinks(chain, FirstChannels(chain, k - 1), {c});
      SuffixOneChannel(chain, k - 1);
      assert rest[0] == chain[k - 1];
      FirstIsDropped(rest);
      assert rest[1..] == chain[k..];
    }
  }

  lemma SuffixOneChannel(chain: seq<Provider>, k: nat)
    requires OneChannelEach(chain) && k <= |chain|
    ensures OneChannelEach(chain[k..])
  {
    hide InferChannel;
  }

  lemma FirstIsDropped(chain: seq<Provider>)
    requires AllDeclared(chain) && OneChannelEach(chain) && chain != []
    ensures Untried(chain, {InferChannel(chain[0])}) == chain[1..]
  {
    forall i | 0 <= i < |chain| ensures InferChannel(chain[i]) == chain[i].declared.value {
    }
    hide InferChannel;
    UntriedNone(chain[1..], {InferChannel(chain[0])});
    assert [] + chain[1..] == chain[1..];
  }
}
