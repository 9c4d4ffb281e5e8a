/** Choosing one price per model from the models.dev catalogue (controller/ratio_sync.go): candidates
    are folded in provider order with an epsilon comparison that is not transitive. */
module ModelsDev {
  import opened Basics
  import opened ModelNames
  import opened PriceDifferences

  /** A decoded float64: finite, or NaN/Inf. */
  datatype Price = Finite(r: real) | NonFinite

  datatype Cost = Cost(
    input: Option<Price>, output: Option<Price>, cacheRead: Option<Price>, cacheWrite: Option<Price>,
    cacheWrite5m: Option<Price>, cacheCreate: Option<Price>, cacheCreation: Option<Price>)

  datatype Provider = Provider(name: string, models: map<string, Cost>)

  datatype Candidate = Candidate(
    provider: string, providerName: string, input: real, output: Option<real>,
    cacheRead: Option<real>, cacheWrite: Option<real>)

  predicate ValidPrice(p: Price) {
    p.Finite? && p.r >= 0.0
  }

  /** cloneValidCostPtr: the first valid price of the list. */
  function FirstValid(prices: seq<Option<Price>>): Option<real> {
    if prices == [] then None
    else if prices[0].Some? && ValidPrice(prices[0].value) then Some(prices[0].value.r)
    else FirstValid(prices[1..])
  }

  function BuildCandidate(provider: string, providerName: string, cost: Cost): Option<Candidate> {
    if cost.input.None? || !ValidPrice(cost.input.value) then None
    else if cost.output.Some? && !ValidPrice(cost.output.value) then None
    else if cost.input.value.r == 0.0 && cost.output.Some? && cost.output.value.r > 0.0 then None
    else Some(Candidate(provider, TrimSpace(providerName), cost.input.value.r,
                        if cost.output.Some? then Some(cost.output.value.r) else None,
                        FirstValid([cost.cacheRead]),
                        FirstValid([cost.cacheWrite, cost.cacheWrite5m, cost.cacheCreate, cost.cacheCreation])))
  }

  /** strings.ToLower on ASCII letters. */
  function Lower(s: string): string {
    seq(|s|, i requires 0 <= i < |s| => if 'A' <= s[i] <= 'Z' then (s[i] as int + 32) as char else s[i])
  }

  predicate Contains(s: string, part: string) {
    part <= s || (s != "" && Contains(s[1..], part))
  }

  /** 0 for Anthropic's own price of a Claude model, 1 otherwise. */
  function Priority(model: string, c: Candidate): int {
    var m := Lower(TrimSpace(model));
    if ("claude-" <= m || Contains(m, "/claude-")) &&
       (Lower(TrimSpace(c.provider)) == "anthropic" || Lower(TrimSpace(c.providerName)) == "anthropic")
    then 0 else 1
  }

  predicate Paid(c: Candidate) {
    c.input > 0.0
  }

  /** The priorities of one model's candidates. */
  type Ranking = Candidate -> int

  function Rank(model: string): Ranking {
    c => Priority(model, c)
  }

  predicate ShouldReplace(rank: Ranking, current: Candidate, next: Candidate) {
    if Paid(current) != Paid(next) then Paid(next)
    else if rank(current) != rank(next) then rank(next) < rank(current)
    else if Paid(next) && !NearlyEqual(next.input, current.input) then next.input < current.input
    else Less(next.provider, current.provider)
  }

  // ---------------------------------------------------------------- string order

  /** Go's < on strings: lexicographic. */
  predicate Less(a: string, b: string)
    decreases |a|
  {
    b != "" && (a == "" || a[0] < b[0] || (a[0] == b[0] && Less(a[1..], b[1..])))
  }

  /** a comes first: it is a proper prefix of b, or smaller where they first differ. */
  ghost predicate ComesFirst(a: string, b: string) {
    a < b || exists i: nat :: SmallerAt(a, b, i)
  }

  ghost predicate SmallerAt(a: string, b: string, i: nat) {
    i < |a| && i < |b| && a[i] < b[i] && forall j :: 0 <= j < i ==> a[j] == b[j]
  }

  /** Dropping a common first character changes nothing. */
  lemma ComesFirstTail(a: string, b: string)
    requires a != "" && b != "" && a[0] == b[0]
    ensures ComesFirst(a, b) <==> ComesFirst(a[1..], b[1..])
  {
    var a', b' := a[1..], b[1..];
    if i: nat :| SmallerAt(a', b', i) {
      assert forall j :: 0 < j <= i ==> a[j] == a'[j - 1] && b[j] == b'[j - 1];
      assert SmallerAt(a, b, i + 1);
    }
    if i: nat :| SmallerAt(a, b, i) {
      assert SmallerAt(a', b', i - 1);
    }
    assert a == [a[0]] + a' && b == [b[0]] + b';
  }

  lemma {:induction false} LessIff(a: string, b: string)
    ensures Less(a, b) <==> ComesFirst(a, b)
    decreases |a|
  {
    if a != "" && b != "" && a[0] == b[0] {
      LessIff(a[1..], b[1..]);
      ComesFirstTail(a, b);
    } else if a != "" && b != "" {
      assert a[0] < b[0] ==> SmallerAt(a, b, 0);
    }
  }

  lemma {:induction false} LessAsymmetric(a: string, b: string)
    requires Less(a, b)
    ensures !Less(b, a)
    decreases |a|
  {
    if a != "" && a[0] == b[0] {
      LessAsymmetric(a[1..], b[1..]);
    }
  }

  lemma {:induction false} LessTotal(a: string, b: string)
    requires a != b
    ensures Less(a, b) || Less(b, a)
    decreases |a|
  {
    if a != "" && b != "" && a[0] == b[0] {
      assert a == [a[0]] + a[1..] && b == [b[0]] + b[1..];
      LessTotal(a[1..], b[1..]);
    }
  }

  lemma {:induction false} LessTransitive(a: string, b: string, c: string)
    requires Less(a, b) && Less(b, c)
    ensures Less(a, c)
    decreases |a|
  {
    if a != "" && a[0] == b[0] && b[0] == c[0] {
      LessTransitive(a[1..], b[1..], c[1..]);
    }
  }

  predicate InOrder(names: seq<string>) {
    forall i, j :: 0 <= i < j < |names| ==> Less(names[i], names[j])
  }

  /** sort.Strings on the keys of a map. */
  method SortStrings(keys: set<string>) returns (names: seq<string>)
    ensures InOrder(names) && forall x :: x in names <==> x in keys
  {
    names := [];
    var left := keys;
    while left != {}
      invariant left <= keys && InOrder(names)
      invariant forall x :: x in names <==> x in keys && x !in left
      invariant forall x, y :: x in names && y in left ==> Less(x, y)
      decreases left
    {
      var least := LeastString(left);
      left := left - {least};
      names := names + [least];
    }
  }

  method LeastString(s: set<string>) returns (m: string)
    requires s != {}
    ensures m in s && forall x :: x in s && x != m ==> Less(m, x)
  {
    m :| m in s;
    var rest := s - {m};
    while rest != {}
      invariant m in s && rest <= s && m !in rest
      invariant forall x :: x in s && x !in rest && x != m ==> Less(m, x)
      decreases rest
    {
      var x :| x in rest;
      rest := rest - {x};
      if Less(x, m) {
        forall y | y in s && y !in rest && y != x ensures Less(x, y) {
          if y != m {
            LessTransitive(x, m, y);
          }
        }
        m := x;
      } else {
        LessTotal(m, x);
      }
    }
  }

  // ---------------------------------------------------------------- the fold

  /** What one turn of the loop keeps, given what it has and what it is offered. */
  function Better(rank: Ranking, current: Option<Candidate>, next: Option<Candidate>): Option<Candidate> {
    if next.Some? && (current.None? || ShouldReplace(rank, current.value, next.value)) then next else current
  }

  /** The candidate that survives a list of candidates. */
  function Chosen(rank: Ranking, cands: seq<Candidate>): Option<Candidate> {
    if cands == [] then None
    else Better(rank, Chosen(rank, cands[..|cands| - 1]), Some(cands[|cands| - 1]))
  }

  predicate SameClass(rank: Ranking, a: Candidate, b: Candidate) {
    Paid(a) == Paid(b) && rank(a) == rank(b)
  }

  predicate ProvidersInOrder(cands: seq<Candidate>) {
    forall i, j :: 0 <= i < j < |cands| ==> Less(cands[i].provider, cands[j].provider)
  }

  /** The winner at index k: paid if anything is; no better priority in its class; among its equals,
      strictly cheaper than every earlier one and less than epsilon above every later one, and the first
      of all when nothing is paid. */
  ghost predicate Wins(rank: Ranking, cands: seq<Candidate>, k: nat) {
    && k < |cands|
    && (forall i :: 0 <= i < |cands| && Paid(cands[i]) ==> Paid(cands[k]))
    && (forall i :: 0 <= i < |cands| && Paid(cands[i]) == Paid(cands[k]) ==> rank(cands[k]) <= rank(cands[i]))
    && (forall i :: 0 <= i < k && SameClass(rank, cands[i], cands[k]) ==>
          Paid(cands[k]) && cands[k].input < cands[i].input)
    && (forall i :: 0 <= i < |cands| && SameClass(rank, cands[i], cands[k]) ==>
          cands[k].input < cands[i].input + EPSILON)
  }

  lemma KeepWins(rank: Ranking, prev: seq<Candidate>, k: nat, next: Candidate)
    requires Wins(rank, prev, k) && !ShouldReplace(rank, prev[k], next)
    requires prev[k].input >= 0.0 && next.input >= 0.0
    ensures Wins(rank, prev + [next], k)
  {
  }

  lemma ReplaceWins(rank: Ranking, prev: seq<Candidate>, k: nat, next: Candidate)
    requires Wins(rank, prev, k) && ShouldReplace(rank, prev[k], next)
    requires Less(prev[k].provider, next.provider)
    ensures Wins(rank, prev + [next], |prev|)
  {
    LessAsymmetric(prev[k].provider, next.provider);
  }

  lemma {:induction false} ChosenWins(rank: Ranking, cands: seq<Candidate>) returns (k: nat)
    requires cands != [] && ProvidersInOrder(cands)
    requires forall i :: 0 <= i < |cands| ==> cands[i].input >= 0.0
    ensures Wins(rank, cands, k) && Chosen(rank, cands) == Some(cands[k])
  {
    var n := |cands| - 1;
    var prev, next := cands[..n], cands[n];
    if n == 0 {
      k := 0;
    } else {
      k := ChosenWins(rank, prev);
      assert cands == prev + [next];
      if ShouldReplace(rank, prev[k], next) {
        ReplaceWins(rank, prev, k, next);
        k := n;
      } else {
        KeepWins(rank, prev, k, next);
      }
    }
  }

  // ---------------------------------------------------------------- the selection loop

  function CandidateOf(data: map<string, Provider>, p: string, model: string): Option<Candidate> {
    if p in data && model in data[p].models then BuildCandidate(p, data[p].name, data[p].models[model]) else None
  }

  function Candidates(data: map<string, Provider>, providers: seq<string>, model: string): seq<Candidate> {
    if providers == [] then []
    else
      var k := |providers| - 1;
      var c := CandidateOf(data, providers[k], model);
      Candidates(data, providers[..k], model) + if c.Some? then [c.value] else []
  }

  lemma {:induction false} CandidatesFacts(data: map<string, Provider>, providers: seq<string>, model: string)
    requires InOrder(providers)
    ensures ProvidersInOrder(Candidates(data, providers, model))
    ensures forall c :: c in Candidates(data, providers, model) <==>
                        exists p :: p in providers && CandidateOf(data, p, model) == Some(c)
    ensures forall c :: c in Candidates(data, providers, model) ==> c.provider in providers && c.input >= 0.0
  {
    if providers != [] {
      var k := |providers| - 1;
      var rest := providers[..k];
      CandidatesFacts(data, rest, model);
      assert providers == rest + [providers[k]];
      var cs := Candidates(data, rest, model);
      forall i | 0 <= i < |cs| ensures Less(cs[i].provider, providers[k]) {
        assert cs[i] in cs;
        var j :| 0 <= j < k && rest[j] == cs[i].provider;
        assert providers[j] == rest[j];
      }
    }
  }

  function Get(m: map<string, Candidate>, key: string): Option<Candidate> {
    if key in m then Some(m[key]) else None
  }

  /** convertModelsDevToRatioData up to the selected candidates, proved against the fold. */
  method SelectInOrder(data: map<string, Provider>, providers: seq<string>) returns (selected: map<string, Candidate>)
    requires forall p :: p in providers ==> p in data
    ensures forall m :: Get(selected, m) == Chosen(Rank(m), Candidates(data, providers, m))
  {
    selected := map[];
    for i := 0 to |providers|
      invariant forall m :: Get(selected, m) == Chosen(Rank(m), Candidates(data, providers[..i], m))
    {
      ghost var before := selected;
      selected := ConsiderProvider(selected, data, providers[i]);
      forall m ensures Get(selected, m) == Chosen(Rank(m), Candidates(data, providers[..i + 1], m)) {
        assert providers[..i + 1][..i] == providers[..i];
        assert Get(before, m) == Chosen(Rank(m), Candidates(data, providers[..i], m));
        ChosenSnoc(Rank(m), Candidates(data, providers[..i], m), CandidateOf(data, providers[i], m));
      }
    }
    assert providers[..|providers|] == providers;
  }

  lemma ChosenSnoc(rank: Ranking, cands: seq<Candidate>, next: Option<Candidate>)
    ensures Chosen(rank, cands + (if next.Some? then [next.value] else [])) == Better(rank, Chosen(rank, cands), next)
  {
    if next.Some? {
      assert (cands + [next.value])[..|cands|] == cands;
    } else {
      assert cands + [] == cands;
    }
  }

  /** The inner loop: every model of one provider, in sorted order. */
  method ConsiderProvider(selected: map<string, Candidate>, data: map<string, Provider>, p: string)
    returns (result: map<string, Candidate>)
    requires p in data
    ensures forall m :: Get(result, m) == Better(Rank(m), Get(selected, m), CandidateOf(data, p, m))
  {
    result := selected;
    var names := SortStrings(data[p].models.Keys);
    for j := 0 to |names|
      invariant forall m :: m !in names[..j] ==> Get(result, m) == Get(selected, m)
      invariant forall m :: m in names[..j] ==>
                Get(result, m) == Better(Rank(m), Get(selected, m), CandidateOf(data, p, m))
    {
      var m := names[j];
      assert names[..j + 1] == names[..j] + [m];
      assert m !in names[..j] by { InOrderDistinct(names, j); }
      var candidate := BuildCandidate(p, data[p].name, data[p].models[m]);
      if candidate.Some? && (m !in result || ShouldReplace(Rank(m), result[m], candidate.value)) {
        result := result[m := candidate.value];
      }
    }
    assert names[..|names|] == names;
  }

  lemma InOrderDistinct(names: seq<string>, j: nat)
    requires InOrder(names) && j < |names|
    ensures names[j] !in names[..j]
  {
    forall i | 0 <= i < j ensures names[i] != names[j] {
      if names[i] == names[j] {
        LessAsymmetric(names[i], names[j]);
      }
    }
  }

  /** Competitors of one model, in any order. */
  predicate Competes(data: map<string, Provider>, model: string, c: Candidate) {
    exists p :: p in data && CandidateOf(data, p, model) == Some(c)
  }

  /** What the price taken has over a rival: paid before free, then the better priority, then a price less than
      one epsilon above the rival's, and a lower one than any rival whose provider sorts first. */
  predicate Beats(m: string, s: Candidate, c: Candidate) {
    && (Paid(c) ==> Paid(s))
    && (Paid(c) == Paid(s) ==> Priority(m, s) <= Priority(m, c))
    && (SameClass(Rank(m), c, s) ==> s.input < c.input + EPSILON)
    && (SameClass(Rank(m), c, s) && Less(c.provider, s.provider) ==> s.input < c.input)
  }

  ghost predicate Best(data: map<string, Provider>, m: string, s: Candidate) {
    Competes(data, m, s) && forall c :: Competes(data, m, c) ==> Beats(m, s, c)
  }

  // ---------------------------------------------------------------- the choice, written out

  /** The model name, trimmed and lowered, starts with "claude-" or holds "/claude-". */
  ghost predicate ClaudeModel(m: string) {
    var l := Lower(TrimSpace(m));
    "claude-" <= l || exists i :: 0 <= i <= |l| && "/claude-" <= l[i..]
  }

  predicate FromAnthropic(c: Candidate) {
    Lower(TrimSpace(c.provider)) == "anthropic" || Lower(TrimSpace(c.providerName)) == "anthropic"
  }

  lemma {:induction false} ContainsIff(s: string, part: string)
    ensures Contains(s, part) <==> exists i :: 0 <= i <= |s| && part <= s[i..]
  {
    assert s[0..] == s;
    if !(part <= s) && s != "" {
      var rest := s[1..];
      ContainsIff(rest, part);
      assert forall i :: 0 <= i <= |rest| ==> rest[i..] == s[i + 1..];
      if i :| 0 <= i <= |s| && part <= s[i..] {
        assert rest[i - 1..] == s[i..];
      }
      if i :| 0 <= i <= |rest| && part <= rest[i..] {
        assert part <= s[i + 1..];
      }
    }
  }

  /** Lowering changes the letters A to Z, each to the letter 32 places on, and nothing else. */
  lemma LowerAt(s: string, i: nat)
    requires i < |s|
    ensures |Lower(s)| == |s|
    ensures Lower(s)[i] as int - s[i] as int == if s[i] in "ABCDEFGHIJKLMNOPQRSTUVWXYZ" then 32 else 0
  {
    var upper := "ABCDEFGHIJKLMNOPQRSTUVWXYZ";
    assert forall k :: 0 <= k < 26 ==> upper[k] as int == 65 + k;
    if 'A' <= s[i] <= 'Z' {
      assert upper[s[i] as int - 65] == s[i];
    }
  }

  lemma PriorityWrittenOut(m: string, c: Candidate)
    ensures Priority(m, c) == if ClaudeModel(m) && FromAnthropic(c) then 0 else 1
  {
    ContainsIff(Lower(TrimSpace(m)), "/claude-");
  }

  predicate Usable(p: Option<Price>) {
    p.Some? && p.value.Finite? && p.value.r >= 0.0
  }

  /** r is the first usable price of the list, or None if there is none. */
  ghost predicate IsFirst(r: Option<real>, prices: seq<Option<Price>>) {
    if r.None? then forall i :: 0 <= i < |prices| ==> !Usable(prices[i])
    else exists i :: 0 <= i < |prices| && FirstAt(r.value, prices, i)
  }

  ghost predicate FirstAt(r: real, prices: seq<Option<Price>>, i: nat)
    requires i < |prices|
  {
    Usable(prices[i]) && prices[i].value.r == r && forall j :: 0 <= j < i ==> !Usable(prices[j])
  }

  lemma {:induction false} FirstValidIff(prices: seq<Option<Price>>, r: Option<real>)
    ensures IsFirst(r, prices) <==> r == FirstValid(prices)
  {
    if prices != [] {
      var rest := prices[1..];
      assert forall i :: 0 < i < |prices| ==> prices[i] == rest[i - 1];
      FirstValidIff(rest, r);
      if Usable(prices[0]) {
        assert FirstAt(prices[0].value.r, prices, 0);
      } else if r.Some? {
        if i :| 0 <= i < |rest| && FirstAt(r.value, rest, i) {
          assert forall j :: 0 <= j < i + 1 ==> !Usable(prices[j]);
          assert FirstAt(r.value, prices, i + 1);
        }
        if i :| 0 <= i < |prices| && FirstAt(r.value, prices, i) {
          assert forall j :: 0 <= j < i - 1 ==> rest[j] == prices[j + 1];
          assert FirstAt(r.value, rest, i - 1);
        }
      }
    }
  }

  /** The candidate is this provider's price: a usable input price, the output price if there is one (which must be
      usable, and not positive when the input is free), and the first usable cache prices. */
  ghost predicate PricedFrom(p: string, name: string, cost: Cost, c: Candidate) {
    && c.provider == p && c.providerName == TrimSpace(name)
    && cost.input == Some(Finite(c.input)) && c.input >= 0.0
    && (if cost.output.None? then c.output == None
        else c.output.Some? && cost.output.value == Finite(c.output.value) && c.output.value >= 0.0)
    && !(c.input == 0.0 && c.output.Some? && c.output.value > 0.0)
    && IsFirst(c.cacheRead, [cost.cacheRead])
    && IsFirst(c.cacheWrite, [cost.cacheWrite, cost.cacheWrite5m, cost.cacheCreate, cost.cacheCreation])
  }

  lemma BuildWrittenOut(p: string, name: string, cost: Cost, c: Candidate)
    ensures BuildCandidate(p, name, cost) == Some(c) <==> PricedFrom(p, name, cost, c)
  {
    FirstValidIff([cost.cacheRead], c.cacheRead);
    FirstValidIff([cost.cacheWrite, cost.cacheWrite5m, cost.cacheCreate, cost.cacheCreation], c.cacheWrite);
  }

  /** Some provider's price for the model. */
  ghost predicate Rival(data: map<string, Provider>, m: string, c: Candidate) {
    exists p :: p in data && m in data[p].models && PricedFrom(p, data[p].name, data[p].models[m], c)
  }

  lemma RivalIff(data: map<string, Provider>, m: string, c: Candidate)
    ensures Rival(data, m, c) <==> Competes(data, m, c)
  {
    forall p | p in data && m in data[p].models
      ensures CandidateOf(data, p, m) == Some(c) <==> PricedFrom(p, data[p].name, data[p].models[m], c)
    {
      BuildWrittenOut(p, data[p].name, data[p].models[m], c);
    }
  }

  predicate BothPaidOrFree(a: Candidate, b: Candidate) {
    a.input > 0.0 <==> b.input > 0.0
  }

  /** The choice against one rival: paid before free; for a Claude model Anthropic's own price before a reseller's; then
      less than a billionth above the rival, and below it if the rival's provider sorts first. */
  ghost predicate FairAgainst(m: string, s: Candidate, c: Candidate) {
    && (c.input > 0.0 ==> s.input > 0.0)
    && (BothPaidOrFree(c, s) && ClaudeModel(m) && FromAnthropic(c) ==> FromAnthropic(s))
    && (BothPaidOrFree(c, s) && (ClaudeModel(m) ==> (FromAnthropic(c) <==> FromAnthropic(s))) ==>
          s.input < c.input + 0.000000001 && (ComesFirst(c.provider, s.provider) ==> s.input < c.input))
  }

  lemma BeatsIsFair(m: string, s: Candidate, c: Candidate)
    requires Beats(m, s, c)
    ensures FairAgainst(m, s, c)
  {
    PriorityWrittenOut(m, s);
    PriorityWrittenOut(m, c);
    LessIff(c.provider, s.provider);
  }

  /** THE SELECTION. A model is priced iff some provider has a usable price for it. The price taken is a
      provider's own, paid if any is paid, Anthropic's own for a Claude model if it has one in that class, and
      otherwise less than one epsilon above the cheapest rival: however many candidates there are, the
      error of the comparison never accumulates. */
  method SelectCandidates(data: map<string, Provider>) returns (selected: map<string, Candidate>)
    ensures forall m :: m in selected <==> exists c :: Rival(data, m, c)
    ensures forall m :: m in selected ==> Rival(data, m, selected[m])
    ensures forall m, c :: m in selected && Rival(data, m, c) ==> FairAgainst(m, selected[m], c)
  {
    var providers := SortStrings(data.Keys);
    selected := SelectInOrder(data, providers);
    forall m
      ensures m in selected <==> exists c :: Rival(data, m, c)
      ensures m in selected ==> Rival(data, m, selected[m])
      ensures m in selected ==> forall c :: Rival(data, m, c) ==> FairAgainst(m, selected[m], c)
    {
      assert Get(selected, m) == Chosen(Rank(m), Candidates(data, providers, m));
      ChosenIsFair(data, providers, m);
    }
  }

  lemma ChosenIsFair(data: map<string, Provider>, providers: seq<string>, m: string)
    requires InOrder(providers) && forall p :: p in providers <==> p in data
    ensures var chosen := Chosen(Rank(m), Candidates(data, providers, m));
            && (chosen.Some? <==> exists c :: Rival(data, m, c))
            && (chosen.Some? ==> Rival(data, m, chosen.value))
            && (chosen.Some? ==> forall c :: Rival(data, m, c) ==> FairAgainst(m, chosen.value, c))
  {
    ChosenIsBest(data, providers, m);
    forall c ensures Rival(data, m, c) <==> Competes(data, m, c) {
      RivalIff(data, m, c);
    }
    var chosen := Chosen(Rank(m), Candidates(data, providers, m));
    if chosen.Some? {
      forall c | Rival(data, m, c) ensures FairAgainst(m, chosen.value, c) {
        BeatsIsFair(m, chosen.value, c);
      }
    }
  }

  lemma CompetesIff(data: map<string, Provider>, providers: seq<string>, m: string, c: Candidate)
    requires InOrder(providers) && forall p :: p in providers <==> p in data
    ensures Competes(data, m, c) <==> c in Candidates(data, providers, m)
  {
    CandidatesFacts(data, providers, m);
  }

  lemma WinnerBeats(m: string, cands: seq<Candidate>, k: nat, c: Candidate)
    requires Wins(Rank(m), cands, k) && ProvidersInOrder(cands) && c in cands
    ensures Beats(m, cands[k], c)
  {
    var i :| 0 <= i < |cands| && cands[i] == c;
    if Less(c.provider, cands[k].provider) && k <= i {
      LessAsymmetric(c.provider, cands[k].provider);
    }
  }

  lemma ChosenIsBest(data: map<string, Provider>, providers: seq<string>, m: string)
    requires InOrder(providers) && forall p :: p in providers <==> p in data
    ensures var chosen := Chosen(Rank(m), Candidates(data, providers, m));
            && (chosen.Some? <==> exists c :: Competes(data, m, c))
            && (chosen.Some? ==> Best(data, m, chosen.value))
  {
    var cands := Candidates(data, providers, m);
    if cands == [] {
      forall c ensures !Competes(data, m, c) {
        CompetesIff(data, providers, m, c);
      }
    } else {
      var k := WinnerOf(data, providers, m);
      CompetesIff(data, providers, m, cands[k]);
      forall c | Competes(data, m, c) ensures Beats(m, cands[k], c) {
        CompetesIff(data, providers, m, c);
        WinnerBeats(m, cands, k, c);
      }
    }
  }

  lemma WinnerOf(data: map<string, Provider>, providers: seq<string>, m: string) returns (k: nat)
    requires InOrder(providers) && Candidates(data, providers, m) != []
    ensures var cands := Candidates(data, providers, m);
            Wins(Rank(m), cands, k) && ProvidersInOrder(cands) && Chosen(Rank(m), cands) == Some(cands[k])
  {
    var cands := Candidates(data, providers, m);
    CandidatesFacts(data, providers, m);
    assert forall i :: 0 <= i < |cands| ==> cands[i] in cands;
    k := ChosenWins(Rank(m), cands);
  }
}
