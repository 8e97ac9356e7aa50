/** The verification pass over existence findings: a memoised probe of the network against a plain filter. */
module SoftNotFound {
  import opened ControlPath

  /** A url as written. */
  datatype Address = Address(text: string)

  datatype Probe = ProbeFailed | Response(status: int, digest: string, usable: bool)

  datatype Finding = Finding(existence: bool, target: Address, rest: string)

  datatype Why =
    | Identical | BodiesDiffer | StatusDiffers | NoControl | TargetFailed | ControlFailed | Oversize | BudgetExceeded

  /** The pass's nonce, and the control url of each url that has one. */
  datatype Setup = Setup(nonce: string, controlOf: Address -> Option<Address>)

  /** The pass as it is wired: controls are built from parsed urls. How urls are read and written is left open. */
  function Wired(nonce: string, parse: Address -> Option<Url>, render: Url -> Address): Setup {
    Setup(nonce, (target: Address) =>
            var control := ControlUrl(parse(target), nonce);
            if control.None? then None else Some(render(control.value)))
  }

  /** A url has a control exactly when it parses, names a host, and its path has one; the control differs from it in the
      path alone, but for the encoded spelling, the query and the fragment, which go. */
  lemma WiredControl(nonce: string, parse: Address -> Option<Url>, render: Url -> Address, a: Address)
    ensures var control := Wired(nonce, parse, render).controlOf(a);
            && (control.Some? <==>
                  parse(a).Some? && parse(a).value.host != "" && ControlFor(parse(a).value.path, nonce).Some?)
            && (control.Some? ==>
                  var u, path := parse(a).value, ControlFor(parse(a).value.path, nonce).value;
                  control.value == render(Url(u.scheme, u.host, path, "", "", u.bareQuery, "")))
  {
  }

  /** Two reported urls at the same spot are compared against one control, so it is asked for once. */
  lemma SameSpotSameControl(nonce: string, parse: Address -> Option<Url>, render: Url -> Address,
                            a: Address, b: Address)
    requires IsHex(nonce) && parse(a).Some? && parse(b).Some? && SameSpot(parse(a).value, parse(b).value)
    requires ControlUrl(parse(a), nonce).Some? && ControlUrl(parse(b), nonce).Some?
    ensures Wired(nonce, parse, render).controlOf(a) == Wired(nonce, parse, render).controlOf(b)
  {
    SharedControlUrl(parse(a).value, parse(b).value, nonce);
  }

  /** What the answers say about a target and its control. */
  function JudgeWith(answers: map<Address, Probe>, target: Address, control: Option<Address>): Why {
    if control.None? then NoControl
    else if target !in answers || answers[target].ProbeFailed? then TargetFailed
    else if control.value !in answers || answers[control.value].ProbeFailed? then ControlFailed
    else if !answers[target].usable || !answers[control.value].usable then Oversize
    else if answers[target].status != answers[control.value].status then StatusDiffers
    else if answers[target].digest != answers[control.value].digest then BodiesDiffer
    else Identical
  }

  function Judge(answers: map<Address, Probe>, f: Finding, setup: Setup): Why {
    JudgeWith(answers, f.target, setup.controlOf(f.target))
  }

  predicate Dropped(answers: map<Address, Probe>, f: Finding, setup: Setup) {
    f.existence && Judge(answers, f, setup).Identical?
  }

  /** What it takes to refute an existence claim: both urls were answered, both answers can be compared, and they agree
      in status and digest. */
  predicate Refuted(answers: map<Address, Probe>, f: Finding, setup: Setup) {
    && f.existence && setup.controlOf(f.target).Some?
    && var c := setup.controlOf(f.target).value;
    && f.target in answers && answers[f.target].Response? && answers[f.target].usable
    && c in answers && answers[c].Response? && answers[c].usable
    && answers[f.target].status == answers[c].status && answers[f.target].digest == answers[c].digest
  }

  /** Each reason that is logged says what it says: which of the two was not answered, or how the answers differ. */
  predicate Explains(why: Why, answers: map<Address, Probe>, f: Finding, setup: Setup) {
    var control := setup.controlOf(f.target);
    match why
    case NoControl => control.None?
    case TargetFailed => control.Some? && f.target in answers && answers[f.target].ProbeFailed?
    case ControlFailed =>
      && control.Some? && f.target in answers && answers[f.target].Response?
      && control.value in answers && answers[control.value].ProbeFailed?
    case Oversize => BothAnswered(answers, f.target, control)
                     && !(answers[f.target].usable && answers[control.value].usable)
    case StatusDiffers => BothUsable(answers, f.target, control)
                          && answers[f.target].status != answers[control.value].status
    case BodiesDiffer =>
      && BothUsable(answers, f.target, control) && answers[f.target].status == answers[control.value].status
      && answers[f.target].digest != answers[control.value].digest
    case Identical =>
      && BothUsable(answers, f.target, control) && answers[f.target].status == answers[control.value].status
      && answers[f.target].digest == answers[control.value].digest
    case BudgetExceeded => false
  }

  predicate BothAnswered(answers: map<Address, Probe>, target: Address, control: Option<Address>) {
    && control.Some? && target in answers && answers[target].Response?
    && control.value in answers && answers[control.value].Response?
  }

  predicate BothUsable(answers: map<Address, Probe>, target: Address, control: Option<Address>) {
    BothAnswered(answers, target, control) && answers[target].usable && answers[control.value].usable
  }

  lemma JudgeExplains(answers: map<Address, Probe>, f: Finding, setup: Setup)
    requires Settled(answers, f, setup)
    ensures Explains(Judge(answers, f, setup), answers, f, setup)
  {
  }

  /** Nothing else removes a finding. */
  lemma DroppedIsRefuted(answers: map<Address, Probe>, f: Finding, setup: Setup)
    ensures Dropped(answers, f, setup) <==> Refuted(answers, f, setup)
  {
  }

  /** The plain filter: one fixed answer per url, no cache, no budget. */
  function Filter(answers: map<Address, Probe>, findings: seq<Finding>, setup: Setup): seq<Finding> {
    if findings == [] then []
    else Filter(answers, findings[..|findings| - 1], setup)
         + (if Dropped(answers, findings[|findings| - 1], setup) then [] else [findings[|findings| - 1]])
  }

  predicate Extends(m: map<Address, Probe>, n: map<Address, Probe>) {
    forall u :: u in m ==> u in n && n[u] == m[u]
  }

  /** The answers needed for the judgement are in. */
  predicate SettledWith(answers: map<Address, Probe>, target: Address, control: Option<Address>) {
    control.Some? ==> target in answers && (answers[target].Response? ==> control.value in answers)
  }

  predicate Settled(answers: map<Address, Probe>, f: Finding, setup: Setup) {
    SettledWith(answers, f.target, setup.controlOf(f.target))
  }

  predicate AllSettled(answers: map<Address, Probe>, findings: seq<Finding>, setup: Setup) {
    forall f :: f in findings && f.existence ==> Settled(answers, f, setup)
  }

  lemma {:induction false} FilterStable(m: map<Address, Probe>, n: map<Address, Probe>, findings: seq<Finding>,
                                        setup: Setup)
    requires Extends(m, n) && AllSettled(m, findings, setup)
    ensures Filter(m, findings, setup) == Filter(n, findings, setup) && AllSettled(n, findings, setup)
    decreases |findings|
  {
    if findings != [] {
      var front, last := findings[..|findings| - 1], findings[|findings| - 1];
      assert findings == front + [last];
      FilterStable(m, n, front, setup);
      SettledStable(m, n, last, setup);
    }
  }

  lemma StableWith(m: map<Address, Probe>, n: map<Address, Probe>, target: Address, control: Option<Address>)
    requires Extends(m, n) && SettledWith(m, target, control)
    ensures JudgeWith(n, target, control) == JudgeWith(m, target, control) && SettledWith(n, target, control)
  {
  }

  lemma SettledStable(m: map<Address, Probe>, n: map<Address, Probe>, f: Finding, setup: Setup)
    requires Extends(m, n) && (f.existence ==> Settled(m, f, setup))
    ensures Dropped(m, f, setup) == Dropped(n, f, setup)
    ensures f.existence ==> Settled(n, f, setup)
  {
    if f.existence {
      StableWith(m, n, f.target, setup.controlOf(f.target));
    }
  }

  // The budget --------------------------------------------------------------

  /** Once the budget is used up it stays used up. */
  predicate Monotone(expired: seq<bool>) {
    forall i, j :: 0 <= i < j < |expired| && expired[i] ==> expired[j]
  }

  /** The first existence finding, from `i` on, that is reached with the budget used up. */
  function CutFrom(findings: seq<Finding>, expired: seq<bool>, i: nat): (c: nat)
    requires |expired| == |findings| && i <= |findings|
    ensures i <= c <= |findings|
    ensures c < |findings| ==> findings[c].existence && expired[c]
    ensures forall j :: i <= j < c ==> !(findings[j].existence && expired[j])
    decreases |findings| - i
  {
    if i == |findings| || (findings[i].existence && expired[i]) then i else CutFrom(findings, expired, i + 1)
  }

  function Min(a: nat, b: nat): nat { if a <= b then a else b }

  /** The result after `i` findings, of which those before `cut` were judged. */
  ghost predicate Kept(kept: seq<Finding>, answers: map<Address, Probe>, findings: seq<Finding>, cut: nat, i: nat,
                       setup: Setup) {
    && cut <= i <= |findings|
    && kept == Filter(answers, findings[..cut], setup) + findings[cut..i]
    && AllSettled(answers, findings[..cut], setup)
  }

  lemma NothingYet(answers: map<Address, Probe>, requests: seq<Address>, findings: seq<Finding>, setup: Setup)
    ensures Kept([], answers, findings, 0, 0, setup) && OnlyNeeded(requests, |requests|, findings, 0, answers, setup)
  {
  }

  lemma KeptGrows(kept: seq<Finding>, m: map<Address, Probe>, n: map<Address, Probe>, findings: seq<Finding>, cut: nat,
                  i: nat, setup: Setup)
    requires Kept(kept, m, findings, cut, i, setup) && Extends(m, n)
    ensures Kept(kept, n, findings, cut, i, setup)
  {
    FilterStable(m, n, findings[..cut], setup);
  }

  lemma KeptJudged(kept: seq<Finding>, answers: map<Address, Probe>, findings: seq<Finding>, i: nat, setup: Setup)
    requires i < |findings| && Kept(kept, answers, findings, i, i, setup)
    requires findings[i].existence ==> Settled(answers, findings[i], setup)
    ensures Kept(if Dropped(answers, findings[i], setup) then kept else kept + [findings[i]],
                 answers, findings, i + 1, i + 1, setup)
  {
    assert findings[..i + 1] == findings[..i] + [findings[i]];
    assert findings[..i + 1][..i] == findings[..i];
    assert findings[i..i] == [] && findings[i + 1..i + 1] == [];
  }

  lemma KeptUnjudged(kept: seq<Finding>, answers: map<Address, Probe>, findings: seq<Finding>, cut: nat, i: nat,
                     setup: Setup)
    requires i < |findings| && Kept(kept, answers, findings, cut, i, setup)
    ensures Kept(kept + [findings[i]], answers, findings, cut, i + 1, setup)
  {
    assert findings[cut..i + 1] == findings[cut..i] + [findings[i]];
  }

  /** Without existence findings there is nothing to filter. */
  lemma {:induction false} NothingToDo(answers: map<Address, Probe>, findings: seq<Finding>, setup: Setup)
    requires forall f :: f in findings ==> !f.existence
    ensures Filter(answers, findings, setup) == findings
    decreases |findings|
  {
    if findings != [] {
      assert findings == findings[..|findings| - 1] + [findings[|findings| - 1]];
      NothingToDo(answers, findings[..|findings| - 1], setup);
    }
  }

  lemma NothingToJudge(answers: map<Address, Probe>, findings: seq<Finding>, cut: nat, setup: Setup)
    requires cut <= |findings| && forall f :: f in findings ==> !f.existence
    ensures Kept(findings, answers, findings, cut, |findings|, setup)
  {
    NothingToDo(answers, findings[..cut], setup);
    assert findings == findings[..cut] + findings[cut..|findings|];
  }

  predicate NoRepeats(urls: seq<Address>) {
    forall i, j :: 0 <= i < j < |urls| ==> urls[i] != urls[j]
  }

  /** The requests one judgement takes: the target unless it is known, then the control unless it is known or not
      worth asking for. */
  function Asks(before: map<Address, Probe>, after: map<Address, Probe>, target: Address, control: Option<Address>)
    : seq<Address>
  {
    if control.None? then []
    else if target !in after || after[target].ProbeFailed? then AskOnce(before, target)
    else AskOnce(before, target) + (if control.value == target then [] else AskOnce(before, control.value))
  }

  function AskOnce(known: map<Address, Probe>, url: Address): seq<Address> {
    if url in known then [] else [url]
  }

  lemma NothingAsked(requests: seq<Address>)
    ensures requests + [] == requests
  {
  }

  lemma BothAsked(requests: seq<Address>, before: map<Address, Probe>, mid: map<Address, Probe>, target: Address,
                  control: Address)
    requires forall u :: u in mid <==> u in before || u == target
    ensures requests + AskOnce(before, target) + AskOnce(mid, control)
         == requests + (AskOnce(before, target) + (if control == target then [] else AskOnce(before, control)))
  {
  }

  /** The finding has a control, and the url is its target, or is that control and the target was answered. */
  predicate ProbedFor(u: Address, f: Finding, answers: map<Address, Probe>, setup: Setup) {
    && setup.controlOf(f.target).Some?
    && (u == f.target
        || (u == setup.controlOf(f.target).value && f.target in answers && answers[f.target].Response?))
  }

  predicate Needed(u: Address, findings: seq<Finding>, n: nat, answers: map<Address, Probe>, setup: Setup)
    requires n <= |findings|
  {
    exists i :: 0 <= i < n && findings[i].existence && ProbedFor(u, findings[i], answers, setup)
  }

  /** From the `from`-th on, all requests are for one of the first `n` existence findings. */
  predicate OnlyNeeded(requests: seq<Address>, from: nat, findings: seq<Finding>, n: nat, answers: map<Address, Probe>,
                       setup: Setup)
    requires n <= |findings|
  {
    forall i :: from <= i < |requests| ==> Needed(requests[i], findings, n, answers, setup)
  }

  /** The cache was filled by these requests, each for a url not asked before, with the network's answers to them. */
  ghost predicate CacheOk(network: (nat, Address) -> Probe, cache: map<Address, Probe>, requests: seq<Address>) {
    if requests == [] then cache == map[]
    else
      var n, url := |requests| - 1, requests[|requests| - 1];
      url in cache && cache[url] == network(n, url) && CacheOk(network, cache - {url}, requests[..n])
  }

  lemma CacheGrows(network: (nat, Address) -> Probe, cache: map<Address, Probe>, requests: seq<Address>, url: Address)
    requires CacheOk(network, cache, requests) && url !in cache
    ensures CacheOk(network, cache[url := network(|requests|, url)], requests + [url])
  {
    assert cache[url := network(|requests|, url)] - {url} == cache;
    assert (requests + [url])[..|requests|] == requests;
  }

  lemma {:induction false} CacheHas(network: (nat, Address) -> Probe, cache: map<Address, Probe>,
                                    requests: seq<Address>,
                                    u: Address)
    requires CacheOk(network, cache, requests)
    ensures u in cache <==> u in requests
    decreases |requests|
  {
    if requests != [] {
      var n, url := |requests| - 1, requests[|requests| - 1];
      CacheHas(network, cache - {url}, requests[..n], u);
      assert requests == requests[..n] + [url];
    }
  }

  lemma {:induction false} CacheAnswer(network: (nat, Address) -> Probe, cache: map<Address, Probe>,
                                       requests: seq<Address>, i: nat)
    requires CacheOk(network, cache, requests) && i < |requests|
    ensures requests[i] in cache && cache[requests[i]] == network(i, requests[i])
    ensures forall j :: i < j < |requests| ==> requests[i] != requests[j]
    decreases |requests|
  {
    var n, url := |requests| - 1, requests[|requests| - 1];
    if i < n {
      CacheAnswer(network, cache - {url}, requests[..n], i);
      assert forall j :: i < j < n ==> requests[..n][j] == requests[j];
    }
  }

  /** So no url is requested twice, and the cache holds the network's answers to exactly the requested urls. */
  lemma CacheMeaning(network: (nat, Address) -> Probe, cache: map<Address, Probe>, requests: seq<Address>)
    requires CacheOk(network, cache, requests)
    ensures NoRepeats(requests)
    ensures forall u :: u in cache <==> u in requests
    ensures forall i :: 0 <= i < |requests| ==> requests[i] in cache && cache[requests[i]] == network(i, requests[i])
  {
    forall u
      ensures u in cache <==> u in requests
    {
      CacheHas(network, cache, requests, u);
    }
    forall i | 0 <= i < |requests|
      ensures cache[requests[i]] == network(i, requests[i])
              && forall j :: i < j < |requests| ==> requests[i] != requests[j]
    {
      CacheAnswer(network, cache, requests, i);
    }
  }

  class Verifier {
    const setup: Setup
    /** The network: any answer to the n-th request. */
    const network: (nat, Address) -> Probe
    var cache: map<Address, Probe>
    var sent: nat
    ghost var requests: seq<Address>

    ghost predicate Valid()
      reads this
    {
      sent == |requests| && CacheOk(network, cache, requests)
    }

    constructor (setup: Setup, network: (nat, Address) -> Probe)
      ensures Valid() && this.setup == setup && this.network == network && cache == map[] && requests == []
    {
      this.setup, this.network := setup, network;
      cache, sent, requests := map[], 0, [];
    }

    method Fetch(url: Address) returns (p: Probe)
      requires Valid()
      modifies `cache, `sent, `requests
      ensures Valid() && cache == old(cache)[url := p]
      ensures p == if url in old(cache) then old(cache)[url] else network(old(sent), url)
      ensures requests == old(requests) + AskOnce(old(cache), url)
    {
      if url in cache {
        return cache[url];
      }
      p := network(sent, url);
      CacheGrows(network, cache, requests, url);
      cache := cache[url := p];
      requests, sent := requests + [url], sent + 1;
    }

    /** Every way out but one keeps the finding. */
    method Decide(f: Finding, expired: bool) returns (why: Why)
      requires Valid()
      modifies `cache, `sent, `requests
      ensures Valid() && Extends(old(cache), cache)
      ensures expired ==> why.BudgetExceeded? && requests == old(requests) && cache == old(cache)
      ensures !expired ==> Settled(cache, f, setup) && why == Judge(cache, f, setup) && Explains(why, cache, f, setup)
      ensures f.existence ==> (why.Identical? <==> !expired && Refuted(cache, f, setup))
      ensures !expired ==>
                requests == old(requests) + Asks(old(cache), cache, f.target, setup.controlOf(f.target))
    {
      if expired {
        return BudgetExceeded;
      }
      why := ProbeBoth(f.target, setup.controlOf(f.target));
      DroppedIsRefuted(cache, f, setup);
      JudgeExplains(cache, f, setup);
    }

    method ProbeBoth(target: Address, control: Option<Address>) returns (why: Why)
      requires Valid()
      modifies `cache, `sent, `requests
      ensures Valid() && Extends(old(cache), cache)
      ensures SettledWith(cache, target, control) && why == JudgeWith(cache, target, control)
      ensures requests == old(requests) + Asks(old(cache), cache, target, control)
    {
      if control.None? {
        NothingAsked(requests);
        return NoControl;
      }
      var t := Fetch(target);
      if t.ProbeFailed? {
        NothingAsked(requests);
        return TargetFailed;
      }
      ghost var mid := cache;
      why := ProbeControl(target, control.value);
      BothAsked(old(requests), old(cache), mid, target, control.value);
    }

    /** The target has been answered: ask for the control and compare. */
    method ProbeControl(target: Address, control: Address) returns (why: Why)
      requires Valid() && target in cache && cache[target].Response?
      modifies `cache, `sent, `requests
      ensures Valid() && Extends(old(cache), cache)
      ensures SettledWith(cache, target, Some(control)) && why == JudgeWith(cache, target, Some(control))
      ensures requests == old(requests) + AskOnce(old(cache), control)
    {
      var t := cache[target];
      var c := Fetch(control);
      if c.ProbeFailed? {
        return ControlFailed;
      }
      why := Compare(t, c);
    }

    /** Two answers that came in. */
    method Compare(t: Probe, c: Probe) returns (why: Why)
      requires t.Response? && c.Response?
      ensures why == if !t.usable || !c.usable then Oversize
                     else if t.status != c.status then StatusDiffers
                     else if t.digest != c.digest then BodiesDiffer
                     else Identical
    {
      if !t.usable || !c.usable {
        return Oversize;
      }
      if t.status != c.status {
        return StatusDiffers;
      }
      if t.digest != c.digest {
        return BodiesDiffer;
      }
      return Identical;
    }

    /** The pass. `expired[i]` says whether the budget is used up when finding `i` is reached. Every existence finding
        reached in time is judged, by the network's own answers, each asked for at most once and only when needed; the
        result is the plain filter of these findings followed by all the others. */
    method Run(findings: seq<Finding>, expired: seq<bool>) returns (kept: seq<Finding>)
      requires Valid() && |expired| == |findings| && Monotone(expired)
      modifies `cache, `sent, `requests
      ensures Valid() && old(requests) <= requests
      ensures setup.nonce == "" ==> kept == findings && requests == old(requests)
      ensures setup.nonce != "" ==>
                var cut := CutFrom(findings, expired, 0);
                && Kept(kept, cache, findings, cut, |findings|, setup)
                && OnlyNeeded(requests, |old(requests)|, findings, cut, cache, setup)
                && Survivors(kept, cache, findings, cut, setup)
    {
      ghost var reached := CutFrom(findings, expired, 0);
      var candidates := CountCandidates(findings);
      if candidates == 0 || setup.nonce == "" {
        if candidates == 0 {
          NothingToJudge(cache, findings, reached, setup);
          KeptMeaning(findings, cache, findings, reached, setup);
        }
        return findings;
      }
      kept := Sift(findings, expired);
      KeptMeaning(kept, cache, findings, reached, setup);
    }

    /** The loop over the findings. */
    method Sift(findings: seq<Finding>, expired: seq<bool>) returns (kept: seq<Finding>)
      requires Valid() && |expired| == |findings| && Monotone(expired)
      modifies `cache, `sent, `requests
      ensures Valid() && |old(requests)| <= |requests| && requests[..|old(requests)|] == old(requests)
      ensures var cut := CutFrom(findings, expired, 0);
              && Kept(kept, cache, findings, cut, |findings|, setup)
              && OnlyNeeded(requests, |old(requests)|, findings, cut, cache, setup)
    {
      ghost var cut := CutFrom(findings, expired, 0);
      kept := [];
      var i := 0;
      NothingYet(cache, requests, findings, setup);
      while i < |findings|
        invariant i <= |findings| && Valid()
        invariant |old(requests)| <= |requests| && requests[..|old(requests)|] == old(requests)
        invariant i <= cut ==> CutFrom(findings, expired, i) == cut
        invariant Kept(kept, cache, findings, Min(i, cut), i, setup)
        invariant OnlyNeeded(requests, |old(requests)|, findings, Min(i, cut), cache, setup)
      {
        kept := ConsiderOne(findings, expired, i, cut, kept, |old(requests)|);
        i := i + 1;
      }
    }

    /** One finding: kept unseen when it is no existence finding, judged otherwise. */
    method ConsiderOne(findings: seq<Finding>, expired: seq<bool>, i: nat, ghost cut: nat, kept: seq<Finding>,
                       ghost from: nat)
      returns (kept': seq<Finding>)
      requires Valid() && i < |findings| == |expired| && Monotone(expired)
      requires cut <= |findings| && (cut < |findings| ==> expired[cut])
      requires i <= cut ==> CutFrom(findings, expired, i) == cut
      requires Kept(kept, cache, findings, Min(i, cut), i, setup)
      requires from <= |requests| && OnlyNeeded(requests, from, findings, Min(i, cut), cache, setup)
      modifies `cache, `sent, `requests
      ensures Valid() && from <= |requests| && requests[..from] == old(requests[..from])
      ensures i + 1 <= cut ==> CutFrom(findings, expired, i + 1) == cut
      ensures Kept(kept', cache, findings, Min(i + 1, cut), i + 1, setup)
      ensures OnlyNeeded(requests, from, findings, Min(i + 1, cut), cache, setup)
    {
      var f := findings[i];
      if !f.existence {
        if i < cut {
          KeptJudged(kept, cache, findings, i, setup);
          NeededLater(requests, from, findings, i, i + 1, cache, cache, setup);
        } else {
          KeptUnjudged(kept, cache, findings, cut, i, setup);
        }
        return kept + [f];
      }
      ghost var before, asked := cache, requests;
      var why := Decide(f, expired[i]);
      KeptGrows(kept, before, cache, findings, Min(i, cut), i, setup);
      if i < cut {
        KeptJudged(kept, cache, findings, i, setup);
        NeededGrows(asked, requests, before, cache, from, findings, i, setup);
      } else {
        KeptUnjudged(kept, cache, findings, cut, i, setup);
        NeededLater(asked, from, findings, cut, cut, before, cache, setup);
      }
      return if why.Identical? then kept else kept + [f];
    }

    method CountCandidates(findings: seq<Finding>) returns (candidates: nat)
      ensures candidates == 0 <==> forall f :: f in findings ==> !f.existence
    {
      candidates := 0;
      var k := 0;
      while k < |findings|
        invariant 0 <= k <= |findings|
        invariant candidates == 0 <==> forall i :: 0 <= i < k ==> !findings[i].existence
      {
        if findings[k].existence {
          candidates := candidates + 1;
        }
        k := k + 1;
      }
    }
  }

  /** What was needed stays needed when more answers come in and more findings are looked at. */
  lemma NeededStays(u: Address, findings: seq<Finding>, n: nat, m: nat, before: map<Address, Probe>,
                    after: map<Address, Probe>, setup: Setup)
    requires n <= m <= |findings| && Extends(before, after) && Needed(u, findings, n, before, setup)
    ensures Needed(u, findings, m, after, setup)
  {
    var i :| 0 <= i < n && findings[i].existence && ProbedFor(u, findings[i], before, setup);
    assert ProbedFor(u, findings[i], after, setup);
  }

  lemma NeededGrows(asked: seq<Address>, requests: seq<Address>, before: map<Address, Probe>,
                    after: map<Address, Probe>, from: nat, findings: seq<Finding>, i: nat, setup: Setup)
    requires i < |findings| && OnlyNeeded(asked, from, findings, i, before, setup)
    requires findings[i].existence && Extends(before, after) && Settled(after, findings[i], setup)
    requires requests == asked + Asks(before, after, findings[i].target, setup.controlOf(findings[i].target))
    ensures OnlyNeeded(requests, from, findings, i + 1, after, setup)
  {
    forall j | from <= j < |requests|
      ensures Needed(requests[j], findings, i + 1, after, setup)
    {
      if j < |asked| {
        NeededStays(asked[j], findings, i, i + 1, before, after, setup);
      } else {
        assert ProbedFor(requests[j], findings[i], after, setup);
      }
    }
  }

  lemma NeededLater(requests: seq<Address>, from: nat, findings: seq<Finding>, n: nat, m: nat,
                    before: map<Address, Probe>, after: map<Address, Probe>, setup: Setup)
    requires n <= m <= |findings| && Extends(before, after) && OnlyNeeded(requests, from, findings, n, before, setup)
    ensures OnlyNeeded(requests, from, findings, m, after, setup)
  {
    forall j | from <= j < |requests|
      ensures Needed(requests[j], findings, m, after, setup)
    {
      NeededStays(requests[j], findings, n, m, before, after, setup);
    }
  }

  predicate SubsequenceOf(a: seq<Finding>, b: seq<Finding>)
    decreases |b|
  {
    a == [] || (b != [] && ((a[|a| - 1] == b[|b| - 1] && SubsequenceOf(a[..|a| - 1], b[..|b| - 1]))
                            || SubsequenceOf(a, b[..|b| - 1])))
  }

  lemma {:induction false} FilterOrder(answers: map<Address, Probe>, findings: seq<Finding>, setup: Setup)
    ensures SubsequenceOf(Filter(answers, findings, setup), findings)
    decreases |findings|
  {
    if findings != [] {
      var front, last := findings[..|findings| - 1], findings[|findings| - 1];
      FilterOrder(answers, front, setup);
      var rest := Filter(answers, front, setup);
      if Dropped(answers, last, setup) {
        assert Filter(answers, findings, setup) == rest;
      } else {
        assert Filter(answers, findings, setup) == rest + [last];
        assert (rest + [last])[..|rest|] == rest;
      }
    }
  }

  lemma {:induction false} FilterCounts(answers: map<Address, Probe>, findings: seq<Finding>, f: Finding, setup: Setup)
    ensures multiset(Filter(answers, findings, setup))[f]
         == if Dropped(answers, f, setup) then 0 else multiset(findings)[f]
    decreases |findings|
  {
    if findings != [] {
      var front, last := findings[..|findings| - 1], findings[|findings| - 1];
      FilterCounts(answers, front, f, setup);
      assert findings == front + [last];
      CountOne(front, last, f);
      CountOne(Filter(answers, front, setup), last, f);
    }
  }

  lemma CountOne(xs: seq<Finding>, y: Finding, f: Finding)
    ensures multiset(xs + [y])[f] == multiset(xs)[f] + (if y == f then 1 else 0)
  {
  }

  /** The filter keeps the order, keeps every copy of each finding that is not a refuted existence claim, and removes
      all copies of those that are. */
  lemma FilterMeaning(answers: map<Address, Probe>, findings: seq<Finding>, setup: Setup)
    ensures SubsequenceOf(Filter(answers, findings, setup), findings)
    ensures forall f :: multiset(Filter(answers, findings, setup))[f]
                     == if Refuted(answers, f, setup) then 0 else multiset(findings)[f]
  {
    FilterOrder(answers, findings, setup);
    forall f
      ensures multiset(Filter(answers, findings, setup))[f]
           == if Refuted(answers, f, setup) then 0 else multiset(findings)[f]
    {
      FilterCounts(answers, findings, f, setup);
      DroppedIsRefuted(answers, f, setup);
    }
  }

  /** The input in its order, without any copy of the refuted findings among those before `cut`, and with everything
      from there on. */
  ghost predicate Survivors(kept: seq<Finding>, answers: map<Address, Probe>, findings: seq<Finding>, cut: nat,
                            setup: Setup)
    requires cut <= |findings|
  {
    && SubsequenceOf(kept, findings)
    && forall f :: multiset(kept)[f] == (if Refuted(answers, f, setup) then 0 else multiset(findings[..cut])[f])
                                        + multiset(findings[cut..])[f]
  }

  lemma {:induction false} SubsequenceExtended(a: seq<Finding>, b: seq<Finding>, rest: seq<Finding>)
    requires SubsequenceOf(a, b)
    ensures SubsequenceOf(a + rest, b + rest)
    decreases |rest|
  {
    if rest == [] {
      assert a + rest == a && b + rest == b;
    } else {
      var front := rest[..|rest| - 1];
      assert (a + rest)[..|a + rest| - 1] == a + front && (b + rest)[..|b + rest| - 1] == b + front;
      SubsequenceExtended(a, b, front);
    }
  }

  lemma KeptMeaning(kept: seq<Finding>, answers: map<Address, Probe>, findings: seq<Finding>, cut: nat, setup: Setup)
    requires cut <= |findings| && Kept(kept, answers, findings, cut, |findings|, setup)
    ensures Survivors(kept, answers, findings, cut, setup)
  {
    FilterMeaning(answers, findings[..cut], setup);
    var judged := Filter(answers, findings[..cut], setup);
    assert findings[cut..|findings|] == findings[cut..] && findings == findings[..cut] + findings[cut..];
    SubsequenceExtended(judged, findings[..cut], findings[cut..]);
    forall f
      ensures multiset(kept)[f] == (if Refuted(answers, f, setup) then 0 else multiset(findings[..cut])[f])
                                   + multiset(findings[cut..])[f]
    {
      assert multiset(kept) == multiset(judged) + multiset(findings[cut..]);
    }
  }
}
