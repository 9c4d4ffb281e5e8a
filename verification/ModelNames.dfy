/** Name lists as channel_upstream_update.go handles them: trimming, de-duplication, filtering,
    and the comma-joined form in which a channel stores its models. */
module ModelNames {

  // ---------------------------------------------------------------- trimming

  /** The characters unicode.IsSpace accepts. */
  predicate IsSpace(c: char) {
    c in {'\t', '\n', '\U{000B}', '\U{000C}', '\r', ' ', '\U{0085}', '\U{00A0}', '\U{1680}',
          '\U{2028}', '\U{2029}', '\U{202F}', '\U{205F}', '\U{3000}'}
    || '\U{2000}' <= c <= '\U{200A}'
  }

  /** By code point. */
  lemma SpacesWrittenOut(c: char)
    ensures var code := c as int;
            IsSpace(c) <==>
            || 9 <= code <= 13 || code == 32 || code == 133 || code == 160 || code == 5760
            || 8192 <= code <= 8202 || code == 8232 || code == 8233 || code == 8239 || code == 8287 || code == 12288
  {
  }

  function TrimLeft(s: string): string {
    if s != "" && IsSpace(s[0]) then TrimLeft(s[1..]) else s
  }

  function TrimRight(s: string): string {
    if s != "" && IsSpace(s[|s| - 1]) then TrimRight(s[..|s| - 1]) else s
  }

  function TrimSpace(s: string): string {
    TrimRight(TrimLeft(s))
  }

  /** Nothing left to trim. */
  predicate Trimmed(s: string) {
    s == "" || (!IsSpace(s[0]) && !IsSpace(s[|s| - 1]))
  }

  lemma {:induction false} TrimRightEnds(s: string)
    ensures var r := TrimRight(s);
            (r == "" || !IsSpace(r[|r| - 1])) && |r| <= |s| && r == s[..|r|]
    decreases |s|
  {
    if s != "" && IsSpace(s[|s| - 1]) {
      TrimRightEnds(s[..|s| - 1]);
    }
  }

  lemma {:induction false} TrimLeftEnds(s: string)
    ensures var r := TrimLeft(s);
            (r == "" || !IsSpace(r[0])) && |r| <= |s| && r == s[|s| - |r|..]
    decreases |s|
  {
    if s != "" && IsSpace(s[0]) {
      TrimLeftEnds(s[1..]);
    }
  }

  lemma TrimSpaceTrims(s: string)
    ensures Trimmed(TrimSpace(s))
    ensures Trimmed(s) ==> TrimSpace(s) == s
    ensures forall c :: c in TrimSpace(s) ==> c in s
  {
    TrimLeftEnds(s);
    TrimRightEnds(TrimLeft(s));
  }

  // ---------------------------------------------------------------- filtering and de-duplication

  function Filter<T(!new)>(s: seq<T>, keep: T -> bool): (r: seq<T>)
    ensures forall x :: x in r <==> x in s && keep(x)
  {
    if s == [] then []
    else
      var r := Filter(s[..|s| - 1], keep);
      var x := s[|s| - 1];
      if keep(x) then r + [x] else r
  }

  /** First occurrences, in order. */
  function Uniq<T(==,!new)>(s: seq<T>): (r: seq<T>)
    ensures forall x :: x in r <==> x in s
    ensures Distinct(r)
  {
    if s == [] then []
    else
      var r := Uniq(s[..|s| - 1]);
      var x := s[|s| - 1];
      if x in r then r else r + [x]
  }

  predicate Distinct<T(==)>(s: seq<T>) {
    forall i, j :: 0 <= i < j < |s| ==> s[i] != s[j]
  }

  lemma {:induction false} UniqOfDistinct<T(!new)>(s: seq<T>)
    requires Distinct(s)
    ensures Uniq(s) == s
  {
    if s != [] {
      var t := s[..|s| - 1];
      UniqOfDistinct(t);
      assert s == t + [s[|s| - 1]];
    }
  }

  lemma {:induction false} FilterDistinct<T(!new)>(s: seq<T>, keep: T -> bool)
    requires Distinct(s)
    ensures Distinct(Filter(s, keep))
  {
    if s != [] {
      var t := s[..|s| - 1];
      FilterDistinct(t, keep);
      assert s[|s| - 1] !in t;
    }
  }

  /** Two filters that agree on the list give the same list. */
  lemma {:induction false} FilterAgree<T(!new)>(s: seq<T>, f: T -> bool, g: T -> bool)
    requires forall x :: x in s ==> f(x) == g(x)
    ensures Filter(s, f) == Filter(s, g)
  {
    if s != [] {
      assert forall x :: x in s[..|s| - 1] ==> x in s;
      FilterAgree(s[..|s| - 1], f, g);
    }
  }

  lemma {:induction false} FilterTwice<T(!new)>(s: seq<T>, f: T -> bool, g: T -> bool)
    ensures Filter(Filter(s, f), g) == Filter(s, x => f(x) && g(x))
  {
    if s != [] {
      var t, x := s[..|s| - 1], s[|s| - 1];
      FilterTwice(t, f, g);
      if f(x) {
        FilterAppend(Filter(t, f), [x], g);
      }
    }
  }

  /** Narrowing a filter is filtering again. */
  lemma Refilter<T(!new)>(s: seq<T>, f: T -> bool, g: T -> bool, both: T -> bool)
    requires forall x :: x in s ==> both(x) == (f(x) && g(x))
    ensures Filter(s, both) == Filter(Filter(s, f), g)
  {
    FilterTwice(s, f, g);
    FilterAgree(s, both, x => f(x) && g(x));
  }

  lemma {:induction false} FilterAppend<T(!new)>(a: seq<T>, b: seq<T>, keep: T -> bool)
    ensures Filter(a + b, keep) == Filter(a, keep) + Filter(b, keep)
  {
    if b == [] {
      assert a + b == a;
    } else {
      var t := b[..|b| - 1];
      assert (a + b)[..|a + b| - 1] == a + t;
      FilterAppend(a, t, keep);
    }
  }

  lemma {:induction false} FilterNone<T(!new)>(s: seq<T>, keep: T -> bool)
    requires forall x :: x in s ==> !keep(x)
    ensures Filter(s, keep) == []
  {
    if Filter(s, keep) != [] {
      assert Filter(s, keep)[0] in Filter(s, keep);
    }
  }

  lemma {:induction false} FilterAll<T(!new)>(s: seq<T>, keep: T -> bool)
    requires forall x :: x in s ==> keep(x)
    ensures Filter(s, keep) == s
  {
    if s != [] {
      assert forall x :: x in s[..|s| - 1] ==> x in s;
      FilterAll(s[..|s| - 1], keep);
      assert s == s[..|s| - 1] + [s[|s| - 1]];
    }
  }

  // ---------------------------------------------------------------- normalised name lists

  /** lo.FilterMap with TrimSpace, dropping what trims to nothing. */
  function TrimAll(names: seq<string>): (r: seq<string>)
    ensures forall x :: x in r ==> x != "" && Trimmed(x)
  {
    if names == [] then []
    else
      var r := TrimAll(names[..|names| - 1]);
      var x := TrimSpace(names[|names| - 1]);
      TrimSpaceTrims(names[|names| - 1]);
      if x == "" then r else r + [x]
  }

  function Normalize(names: seq<string>): (r: seq<string>)
    ensures Normalized(r)
  {
    Uniq(TrimAll(names))
  }

  /** What normalizeModelNames establishes: distinct, trimmed, non-empty names. */
  predicate Normalized(names: seq<string>) {
    Distinct(names) && forall x :: x in names ==> x != "" && Trimmed(x)
  }

  lemma {:induction false} TrimAllOfTrimmed(names: seq<string>)
    requires forall x :: x in names ==> x != "" && Trimmed(x)
    ensures TrimAll(names) == names
  {
    if names != [] {
      var t, x := names[..|names| - 1], names[|names| - 1];
      assert forall y :: y in t ==> y in names;
      TrimAllOfTrimmed(t);
      TrimSpaceTrims(x);
      assert x in names && names == t + [x];
    }
  }

  /** normalizeModelNames changes nothing exactly on the lists it can produce. */
  lemma NormalizeFixpoint(names: seq<string>)
    ensures Normalize(names) == names <==> Normalized(names)
  {
    if Normalized(names) {
      TrimAllOfTrimmed(names);
      UniqOfDistinct(names);
    }
  }

  lemma FilterNormalized(names: seq<string>, keep: string -> bool)
    requires Normalized(names)
    ensures Normalized(Filter(names, keep))
    ensures Normalize(Filter(names, keep)) == Filter(names, keep)
  {
    FilterDistinct(names, keep);
    NormalizeFixpoint(Filter(names, keep));
  }

  lemma {:induction false} TrimAllAppend(a: seq<string>, b: seq<string>)
    ensures TrimAll(a + b) == TrimAll(a) + TrimAll(b)
  {
    if b == [] {
      assert a + b == a;
    } else {
      assert (a + b)[..|a + b| - 1] == a + b[..|b| - 1];
      TrimAllAppend(a, b[..|b| - 1]);
    }
  }

  lemma NormalizeAppend(a: seq<string>, b: seq<string>)
    requires Normalized(a) && Normalized(b)
    ensures forall x :: x in Normalize(a + b) <==> x in a || x in b
  {
    TrimAllAppend(a, b);
    TrimAllOfTrimmed(a);
    TrimAllOfTrimmed(b);
  }

  function Merged(base: seq<string>, appended: seq<string>): seq<string> {
    Normalize(base) + Filter(Normalize(appended), x => x !in Normalize(base))
  }

  function Subtract(base: seq<string>, removed: seq<string>): seq<string> {
    Filter(Normalize(base), x => x !in Normalize(removed))
  }

  function Intersect(base: seq<string>, allowed: seq<string>): seq<string> {
    Filter(Normalize(base), x => x in Normalize(allowed))
  }

  function NewTo(first: seq<string>, extra: seq<string>): seq<string> {
    Filter(extra, x => x !in first)
  }

  lemma NewToStep(first: seq<string>, extra: seq<string>, i: nat)
    requires Distinct(extra) && i < |extra|
    ensures extra[i] in first + NewTo(first, extra[..i]) <==> extra[i] in first
    ensures NewTo(first, extra[..i + 1]) == NewTo(first, extra[..i]) + if extra[i] in first then [] else [extra[i]]
  {
    assert extra[..i + 1][..i] == extra[..i];
    assert extra[i] !in extra[..i];
  }

  /** The loop of mergeModelNames keeps the base in order and appends what is new, once each:
      de-duplicating the concatenation. */
  method MergeModelNames(base: seq<string>, appended: seq<string>) returns (merged: seq<string>)
    ensures merged == Merged(base, appended) == Normalize(base + appended)
    ensures Normalized(merged)
  {
    var first := Normalize(base);
    merged := first;
    var seen := set x | x in merged;
    var extra := Normalize(appended);
    for i := 0 to |extra|
      invariant seen == set x | x in merged
      invariant merged == first + NewTo(first, extra[..i])
    {
      NewToStep(first, extra, i);
      if extra[i] !in seen {
        seen := seen + {extra[i]};
        merged := merged + [extra[i]];
      }
    }
    assert extra[..|extra|] == extra;
    FilterAgree(extra, x => x !in first, x => x !in Normalize(base));
    MergedIsUniq(base, appended);
  }

  lemma {:induction false} UniqAppend<T(!new)>(a: seq<T>, b: seq<T>)
    ensures Uniq(a + b) == Uniq(a) + Filter(Uniq(b), x => x !in Uniq(a))
  {
    if b == [] {
      assert a + b == a;
    } else {
      var t, x := b[..|b| - 1], b[|b| - 1];
      assert (a + b)[..|a + b| - 1] == a + t;
      UniqAppend(a, t);
      if x !in Uniq(t) {
        FilterAppend(Uniq(t), [x], y => y !in Uniq(a));
        assert Uniq(b) == Uniq(t) + [x];
      }
    }
  }

  lemma MergedIsUniq(base: seq<string>, appended: seq<string>)
    ensures Merged(base, appended) == Normalize(base + appended)
    ensures Normalized(Merged(base, appended))
  {
    TrimAllAppend(base, appended);
    UniqAppend(TrimAll(base), TrimAll(appended));
    FilterAgree(Normalize(appended), x => x !in Normalize(base), x => x !in Uniq(TrimAll(base)));
  }

  // ---------------------------------------------------------------- the stored form

  /** strings.Join(names, ","). */
  function Join(names: seq<string>): string {
    if names == [] then ""
    else if |names| == 1 then names[0]
    else names[0] + "," + Join(names[1..])
  }

  /** strings.Split(s, ","): always at least one part. */
  function Split(s: string): (parts: seq<string>)
    ensures |parts| >= 1
    ensures forall p :: p in parts ==> ',' !in p
    ensures ',' !in s ==> parts == [s]
    decreases |s|
  {
    if s == "" then [""]
    else if s[0] == ',' then [""] + Split(s[1..])
    else
      var rest := Split(s[1..]);
      assert s == [s[0]] + s[1..];
      [[s[0]] + rest[0]] + rest[1..]
  }

  function TrimCommasLeft(s: string): string {
    if s != "" && s[0] == ',' then TrimCommasLeft(s[1..]) else s
  }

  function TrimCommasRight(s: string): string {
    if s != "" && s[|s| - 1] == ',' then TrimCommasRight(s[..|s| - 1]) else s
  }

  /** channel.GetModels. */
  function ParseModels(raw: string): seq<string> {
    if raw == "" then [] else Normalize(Split(TrimCommasRight(TrimCommasLeft(raw))))
  }

  predicate CommaFree(names: seq<string>) {
    forall x :: x in names ==> ',' !in x
  }

  lemma {:induction false} SplitPrefix(a: string, rest: string)
    requires ',' !in a
    ensures Split(a + "," + rest) == [a] + Split(rest)
    decreases |a|
  {
    var s := a + "," + rest;
    if a == "" {
      assert s[1..] == rest;
    } else {
      assert s[1..] == a[1..] + "," + rest;
      SplitPrefix(a[1..], rest);
      assert [a[0]] + a[1..] == a;
    }
  }

  lemma {:induction false} SplitJoin(names: seq<string>)
    requires names != [] && CommaFree(names)
    ensures Split(Join(names)) == names
  {
    if |names| == 1 {
      assert names == [names[0]];
    } else {
      SplitPrefix(names[0], Join(names[1..]));
      SplitJoin(names[1..]);
      assert names == [names[0]] + names[1..];
    }
  }

  lemma {:induction false} JoinEnds(names: seq<string>)
    requires names != [] && CommaFree(names) && forall x :: x in names ==> x != ""
    ensures var s := Join(names); s != "" && s[0] != ',' && s[|s| - 1] != ','
  {
    assert names[0] in names;
    if |names| > 1 {
      assert forall x :: x in names[1..] ==> x in names;
      JoinEnds(names[1..]);
    }
  }

  /** GetModels never yields a name with a comma in it. */
  lemma ParseModelsCommaFree(raw: string)
    ensures CommaFree(ParseModels(raw)) && Normalized(ParseModels(raw))
  {
    if raw != "" {
      TrimAllCommaFree(Split(TrimCommasRight(TrimCommasLeft(raw))));
    }
  }

  lemma {:induction false} TrimAllCommaFree(names: seq<string>)
    requires CommaFree(names)
    ensures CommaFree(TrimAll(names))
  {
    if names != [] {
      var t, x := names[..|names| - 1], names[|names| - 1];
      assert forall y :: y in t ==> y in names;
      TrimAllCommaFree(t);
      TrimSpaceTrims(x);
      assert x in names;
    }
  }

  /** Storing a normalised list and reading it back gives the same list exactly when no name holds a comma. */
  lemma JoinParse(names: seq<string>)
    requires Normalized(names)
    ensures ParseModels(Join(names)) == names <==> CommaFree(names)
  {
    ParseModelsCommaFree(Join(names));
    if CommaFree(names) && names != [] {
      JoinEnds(names);
      SplitJoin(names);
      NormalizeFixpoint(names);
    }
  }

  // ---------------------------------------------------------------- reading back names that hold commas

  lemma {:induction false} SplitTrailing(s: string)
    ensures Split(s + ",") == Split(s) + [""]
    decreases |s|
  {
    if s == "" {
      assert s + "," == ",";
      assert Split(",") == [""] + Split("");
    } else {
      assert (s + ",")[1..] == s[1..] + ",";
      SplitTrailing(s[1..]);
    }
  }

  lemma TrimAllEmptyEnds(names: seq<string>)
    ensures TrimAll([""] + names) == TrimAll(names) == TrimAll(names + [""])
  {
    TrimAllAppend([""], names);
    TrimAllAppend(names, [""]);
    assert TrimAll([""]) == [] by { assert [""][..0] == []; }
  }

  lemma {:induction false} SplitTrimLeft(s: string)
    ensures TrimAll(Split(TrimCommasLeft(s))) == TrimAll(Split(s))
    decreases |s|
  {
    if s != "" && s[0] == ',' {
      SplitTrimLeft(s[1..]);
      TrimAllEmptyEnds(Split(s[1..]));
    }
  }

  lemma {:induction false} SplitTrimRight(s: string)
    ensures TrimAll(Split(TrimCommasRight(s))) == TrimAll(Split(s))
    decreases |s|
  {
    if s != "" && s[|s| - 1] == ',' {
      var t := s[..|s| - 1];
      SplitTrimRight(t);
      assert s == t + ",";
      SplitTrailing(t);
      TrimAllEmptyEnds(Split(t));
    }
  }

  /** Trimming commas at the ends first changes nothing: GetModels normalises the split text. */
  lemma ParseIsSplit(raw: string)
    ensures ParseModels(raw) == Normalize(Split(raw))
  {
    if raw == "" {
      TrimAllEmptyEnds([]);
      assert [""] + [] == [""];
    } else {
      SplitTrimLeft(raw);
      SplitTrimRight(TrimCommasLeft(raw));
    }
  }

  lemma JoinCons(name: string, rest: seq<string>)
    requires rest != [] && ',' !in name
    ensures Split(Join([name] + rest)) == [name] + Split(Join(rest))
  {
    assert ([name] + rest)[1..] == rest;
    SplitPrefix(name, Join(rest));
  }

  lemma Reassociate<T>(x: T, tail: seq<T>, rest: seq<T>, all: seq<T>)
    requires all == [x] + tail
    ensures all + rest == [x] + (tail + rest)
  {
  }

  lemma {:induction false} SplitJoinAppend(names: seq<string>, more: seq<string>)
    requires CommaFree(names) && more != []
    ensures Split(Join(names + more)) == names + Split(Join(more))
  {
    if names == [] {
      assert names + more == more;
      assert names + Split(Join(more)) == Split(Join(more));
    } else {
      var name, tail := names[0], names[1..];
      SplitJoinAppend(tail, more);
      JoinCons(name, tail + more);
      Reassociate(name, tail, more, names);
      Reassociate(name, tail, Split(Join(more)), names);
    }
  }

  /** A list stored behind comma-free names is read back as those names and then whatever it reads back as itself. */
  lemma JoinAppendParse(names: seq<string>, more: seq<string>)
    requires Normalized(names) && CommaFree(names)
    ensures ParseModels(Join(names + more)) == names + Filter(ParseModels(Join(more)), x => x !in names)
  {
    NormalizeFixpoint(names);
    if more == [] {
      assert names + more == names;
      JoinParse(names);
    } else {
      ParseIsSplit(Join(names + more));
      ParseIsSplit(Join(more));
      SplitJoinAppend(names, more);
      MergedIsUniq(names, Split(Join(more)));
      FilterAgree(ParseModels(Join(more)), x => x !in names, x => x !in Normalize(names));
    }
  }

  /** Two filters give the same list only if they agree on it. */
  lemma FilterEqualIff<T(!new)>(s: seq<T>, f: T -> bool, g: T -> bool)
    ensures Filter(s, f) == Filter(s, g) <==> forall x :: x in s ==> f(x) == g(x)
  {
    if forall x :: x in s ==> f(x) == g(x) {
      FilterAgree(s, f, g);
    } else {
      var x :| x in s && f(x) != g(x);
      assert x in Filter(s, f) <==> x !in Filter(s, g);
    }
  }

  /** The parts with c put before the first. */
  function Prefixed(c: char, parts: seq<string>): seq<string>
    requires parts != []
  {
    if c == ',' then [""] + parts else [[c] + parts[0]] + parts[1..]
  }

  lemma PrefixedConcat(c: char, p: seq<string>, q: seq<string>)
    requires p != []
    ensures Prefixed(c, p + q) == Prefixed(c, p) + q
  {
  }

  lemma SplitCons(s: string, c: char, t: string)
    requires s == [c] + t
    ensures Split(s) == Prefixed(c, Split(t))
  {
    assert s[1..] == t;
  }

  lemma {:induction false} SplitConcat(a: string, b: string)
    ensures Split(a + "," + b) == Split(a) + Split(b)
    decreases |a|
  {
    var s := a + "," + b;
    if a == "" {
      SplitCons(s, ',', b);
    } else {
      SplitCons(s, a[0], a[1..] + "," + b);
      SplitCons(a, a[0], a[1..]);
      SplitConcat(a[1..], b);
      PrefixedConcat(a[0], Split(a[1..]), Split(b));
    }
  }

  lemma {:induction false} SplitJoinContains(names: seq<string>, x: string)
    requires x in names && ',' !in x
    ensures x in Split(Join(names))
  {
    if |names| == 1 {
      assert Join(names) == x;
    } else {
      SplitConcat(names[0], Join(names[1..]));
      if x == names[0] {
        assert Split(x) == [x];
      } else {
        assert x in names[1..];
        SplitJoinContains(names[1..], x);
      }
    }
  }

  lemma {:induction false} TrimAllContains(names: seq<string>, x: string)
    requires x in names && x != "" && Trimmed(x)
    ensures x in TrimAll(names)
  {
    var k := |names| - 1;
    TrimSpaceTrims(names[k]);
    if names[k] != x {
      assert x in names[..k];
      TrimAllContains(names[..k], x);
    }
  }

  /** A trimmed name without a comma is read back, whatever it is stored with. */
  lemma NameSurvives(names: seq<string>, x: string)
    requires x in names && x != "" && Trimmed(x) && ',' !in x
    ensures x in ParseModels(Join(names))
  {
    SplitJoinContains(names, x);
    TrimAllContains(Split(Join(names)), x);
    ParseIsSplit(Join(names));
  }

  /** What TrimSpace returns: the text between the white space at its ends. */
  lemma {:induction false} TrimSpaceOf(before: string, core: string, after: string)
    requires (forall c :: c in before ==> IsSpace(c)) && (forall c :: c in after ==> IsSpace(c))
    requires core != "" && Trimmed(core)
    ensures TrimSpace(before + core + after) == core
    decreases |before| + |after|
  {
    var s := before + core + after;
    if before != "" {
      assert before[0] in before && s[0] == before[0];
      assert s[1..] == before[1..] + core + after;
      TrimSpaceOf(before[1..], core, after);
    } else {
      assert s == core + after && s[0] == core[0];
      TrimRightOf(core, after);
    }
  }

  lemma {:induction false} TrimRightOf(core: string, after: string)
    requires (forall c :: c in after ==> IsSpace(c)) && core != "" && Trimmed(core)
    ensures TrimRight(core + after) == core
    decreases |after|
  {
    var s := core + after;
    if after != "" {
      var k := |after| - 1;
      assert after[k] in after && s[|s| - 1] == after[k];
      assert s[..|s| - 1] == core + after[..k];
      TrimRightOf(core, after[..k]);
    } else {
      assert s == core;
    }
  }
}
