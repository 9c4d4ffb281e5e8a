/** Reconciling a channel's model list with its upstream: detection of pending changes, their
    incremental application, and the agreement between the two. */
module UpstreamModels {
  import opened ModelNames

  /** The part of dto.ChannelOtherSettings this job reads and writes. */
  datatype Settings = Settings(
    autoSync: bool,
    lastCheck: int,
    ignored: seq<string>,
    detected: seq<string>,
    removed: seq<string>)

  /** The stored columns of a channel: models joined by commas, and settings. */
  datatype Row = Row(models: string, settings: Settings)

  /** regexp.MatchString(pattern, name) with a compile error read as no match. */
  type Matcher = (string, string) -> bool

  /** What detection compares against: the upstream list and the redirect mapping. */
  datatype Upstream = Upstream(models: seq<string>, mapping: map<string, string>)

  const REGEX_PREFIX := "regex:"

  predicate EntryIgnores(entry: string, matches: Matcher, name: string) {
    if REGEX_PREFIX <= entry then matches(TrimSpace(entry[|REGEX_PREFIX|..]), name) else entry == name
  }

  predicate Ignores(ignored: seq<string>, matches: Matcher, name: string) {
    exists e :: e in Normalize(ignored) && EntryIgnores(e, matches, name)
  }

  predicate MissingLocally(local: seq<string>, ignored: seq<string>, up: Upstream, matches: Matcher, name: string) {
    name !in local && name !in up.mapping.Values && !Ignores(ignored, matches, name)
  }

  predicate MissingUpstream(up: Upstream, name: string) {
    name !in up.mapping && name !in Normalize(up.models)
  }

  /** collectPendingUpstreamModelChangesFromModels. */
  function Detect(local: seq<string>, ignored: seq<string>, up: Upstream, matches: Matcher)
    : (pending: (seq<string>, seq<string>))
  {
    var l := Normalize(local);
    (Normalize(Filter(Normalize(up.models), m => MissingLocally(l, ignored, up, matches, m))),
     Normalize(Filter(l, m => MissingUpstream(up, m))))
  }

  function DetectRow(row: Row, up: Upstream, matches: Matcher): (seq<string>, seq<string>) {
    Detect(ParseModels(row.models), row.settings.ignored, up, matches)
  }

  /** The stored pending lists are what a detection run now would report. */
  ghost predicate Synced(row: Row, up: Upstream, matches: Matcher) {
    DetectRow(row, up, matches) == (row.settings.detected, row.settings.removed)
  }

  /** Detection in closed form: normalising the filtered lists again changes nothing. */
  lemma DetectIsFilter(row: Row, up: Upstream, matches: Matcher)
    ensures var l := ParseModels(row.models);
            Normalized(l) && CommaFree(l) &&
            DetectRow(row, up, matches) ==
            (Filter(Normalize(up.models), m => MissingLocally(l, row.settings.ignored, up, matches, m)),
             Filter(l, m => MissingUpstream(up, m)))
    ensures Normalized(DetectRow(row, up, matches).0) && Normalized(DetectRow(row, up, matches).1)
  {
    var l := ParseModels(row.models);
    ParseModelsCommaFree(row.models);
    NormalizeFixpoint(l);
    FilterNormalized(Normalize(up.models), m => MissingLocally(l, row.settings.ignored, up, matches, m));
    FilterNormalized(l, m => MissingUpstream(up, m));
  }

  /** An ignore entry covers a name: it is that name, or "regex:" and a pattern that matches it. */
  ghost predicate Covers(entry: string, matches: Matcher, name: string) {
    if "regex:" <= entry then matches(TrimSpace(entry[6..]), name) else entry == name
  }

  /** DETECTION, WRITTEN OUT. A name is listed for adding iff it is upstream and not local, no redirect leads to it and
      no ignore entry covers it; a name is listed for removal iff it is local, no redirect starts at it and
      it is not upstream. */
  lemma DetectionWrittenOut(row: Row, up: Upstream, matches: Matcher, m: string)
    ensures m in DetectRow(row, up, matches).0 <==>
            && m in Normalize(up.models) && m !in ParseModels(row.models)
            && (forall source :: source in up.mapping ==> up.mapping[source] != m)
            && (forall e :: e in Normalize(row.settings.ignored) ==> !Covers(e, matches, m))
    ensures m in DetectRow(row, up, matches).1 <==>
            m in ParseModels(row.models) && m !in up.mapping.Keys && m !in Normalize(up.models)
  {
    DetectIsFilter(row, up, matches);
    assert forall e :: EntryIgnores(e, matches, m) <==> Covers(e, matches, m);
  }

  // ---------------------------------------------------------------- applying a selection

  function ApplySelected(origin: seq<string>, adds: seq<string>, removes: seq<string>): seq<string> {
    var a := Normalize(adds);
    Subtract(Merged(origin, a), Subtract(Normalize(removes), a))
  }

  function SelectedAdds(row: Row, addInput: seq<string>): seq<string> {
    Intersect(addInput, Normalize(row.settings.detected))
  }

  function SelectedRemoves(row: Row, addInput: seq<string>, removeInput: seq<string>): seq<string> {
    Subtract(Intersect(removeInput, Normalize(row.settings.removed)), SelectedAdds(row, addInput))
  }

  /** The operator's three input lists. */
  datatype Selection = Selection(adds: seq<string>, ignores: seq<string>, removes: seq<string>)

  function NextIgnored(row: Row, sel: Selection): seq<string> {
    var a := SelectedAdds(row, sel.adds);
    var merged := Merged(row.settings.ignored, SelectedAdds(row, sel.ignores));
    if |a| > 0 then Subtract(merged, a) else merged
  }

  function NextModels(row: Row, sel: Selection): seq<string> {
    ApplySelected(Normalize(ParseModels(row.models)), SelectedAdds(row, sel.adds),
                  SelectedRemoves(row, sel.adds, sel.removes))
  }

  /** The row applyChannelUpstreamModelUpdates saves. */
  function Applied(row: Row, sel: Selection, now: int): Row {
    var s := row.settings;
    var a, ig := SelectedAdds(row, sel.adds), SelectedAdds(row, sel.ignores);
    var next := NextModels(row, sel);
    Row(if Normalize(ParseModels(row.models)) == next then row.models else Join(next),
        s.(ignored := NextIgnored(row, sel),
           detected := Subtract(Normalize(s.detected), a + ig),
           removed := Subtract(Normalize(s.removed), SelectedRemoves(row, sel.adds, sel.removes)),
           lastCheck := now))
  }

  /** The selected name lists are normalised sub-lists of the pending ones, and never overlap. */
  lemma SelectedFacts(row: Row, sel: Selection, up: Upstream, matches: Matcher)
    requires Synced(row, up, matches)
    ensures forall x :: x in SelectedAdds(row, sel.adds) <==> x in Normalize(sel.adds) && x in row.settings.detected
    ensures forall x :: x in SelectedAdds(row, sel.ignores) <==>
            x in Normalize(sel.ignores) && x in row.settings.detected
    ensures forall x :: x in SelectedRemoves(row, sel.adds, sel.removes) <==>
                        x in Normalize(sel.removes) && x in row.settings.removed
    ensures Normalized(SelectedAdds(row, sel.adds)) && Normalized(SelectedAdds(row, sel.ignores))
    ensures Normalized(SelectedRemoves(row, sel.adds, sel.removes))
    ensures Normalized(row.settings.detected) && Normalized(row.settings.removed)
  {
    DetectIsFilter(row, up, matches);
    var d, r := row.settings.detected, row.settings.removed;
    NormalizeFixpoint(d);
    NormalizeFixpoint(r);
    FilterNormalized(Normalize(sel.adds), x => x in Normalize(Normalize(d)));
    FilterNormalized(Normalize(sel.ignores), x => x in Normalize(Normalize(d)));
    FilterNormalized(Normalize(sel.removes), x => x in Normalize(Normalize(r)));
    var a := SelectedAdds(row, sel.adds);
    NormalizeFixpoint(a);
    FilterNormalized(Intersect(sel.removes, Normalize(r)), x => x !in Normalize(a));
  }

  lemma SubtractNormalized(base: seq<string>, removed: seq<string>)
    requires Normalized(base)
    ensures Normalized(Subtract(base, removed))
    ensures forall x :: x in Subtract(base, removed) <==> x in base && x !in Normalize(removed)
  {
    NormalizeFixpoint(base);
    FilterNormalized(base, x => x !in Normalize(removed));
  }

  /** The ignore list after applying, as a set of entries. */
  lemma NextIgnoredEntries(row: Row, sel: Selection)
    ensures forall x :: x in Normalize(NextIgnored(row, sel)) <==>
                        (x in Normalize(row.settings.ignored) || x in SelectedAdds(row, sel.ignores)) &&
                        x !in SelectedAdds(row, sel.adds)
  {
    var a, ig := SelectedAdds(row, sel.adds), SelectedAdds(row, sel.ignores);
    FilterNormalized(Normalize(sel.adds), x => x in Normalize(Normalize(row.settings.detected)));
    FilterNormalized(Normalize(sel.ignores), x => x in Normalize(Normalize(row.settings.detected)));
    NormalizeFixpoint(a);
    NormalizeFixpoint(ig);
    MergedIsUniq(row.settings.ignored, ig);
    var merged := Merged(row.settings.ignored, ig);
    NormalizeFixpoint(merged);
    SubtractNormalized(merged, a);
    NormalizeFixpoint(Subtract(merged, a));
  }

  /** Applying keeps the unselected local names in order and appends the selected additions. */
  lemma NextModelsShape(row: Row, sel: Selection, up: Upstream, matches: Matcher)
    requires Synced(row, up, matches)
    ensures var a, r := SelectedAdds(row, sel.adds), SelectedRemoves(row, sel.adds, sel.removes);
            NextModels(row, sel) == Filter(ParseModels(row.models), x => x !in r) + a
    ensures Normalized(NextModels(row, sel))
  {
    var l := ParseModels(row.models);
    var a, r := SelectedAdds(row, sel.adds), SelectedRemoves(row, sel.adds, sel.removes);
    SelectedFacts(row, sel, up, matches);
    DetectIsFilter(row, up, matches);
    NormalizeFixpoint(l);
    NormalizeFixpoint(a);
    NormalizeFixpoint(r);
    FilterAll(a, x => x !in l);
    FilterAgree(a, x => x !in l, x => x !in Normalize(l));
    assert Merged(l, a) == l + a;
    MergedIsUniq(l, a);
    NormalizeFixpoint(l + a);
    FilterAll(r, x => x !in Normalize(a));
    assert Subtract(r, a) == r;
    FilterAppend(l, a, x => x !in r);
    FilterAll(a, x => x !in r);
    FilterAgree(l + a, x => x !in r, x => x !in Normalize(r));
    FilterNormalized(l + a, x => x !in r);
  }

  // ---------------------------------------------------------------- agreement with a fresh detection

  /** The names a list turns into when it is stored joined by commas and read back. */
  function Fragments(names: seq<string>): seq<string> {
    ParseModels(Join(names))
  }

  /** The local names the selection leaves. */
  function Kept(row: Row, sel: Selection): seq<string> {
    Filter(ParseModels(row.models), x => x !in SelectedRemoves(row, sel.adds, sel.removes))
  }

  /** Some old or newly selected ignore entry, not itself selected for adding, covers the name. */
  predicate IgnoredAfter(row: Row, sel: Selection, matches: Matcher, m: string) {
    || (exists e :: e in Normalize(row.settings.ignored) && e !in SelectedAdds(row, sel.adds) &&
          EntryIgnores(e, matches, m))
    || (exists e :: e in SelectedAdds(row, sel.ignores) && e !in SelectedAdds(row, sel.adds) &&
          EntryIgnores(e, matches, m))
  }

  /** The name was ignored before, or the operator decided about it. */
  predicate Settled(row: Row, sel: Selection, matches: Matcher, m: string) {
    Ignores(row.settings.ignored, matches, m) || m in SelectedAdds(row, sel.adds) || m in SelectedAdds(row, sel.ignores)
  }

  /** An upstream name that is neither local nor the target of a redirect. */
  predicate Open(row: Row, up: Upstream, m: string) {
    m in Normalize(up.models) && m !in ParseModels(row.models) && m !in up.mapping.Values
  }

  /** What a selection must satisfy, in terms of what the operator sees before applying it: an open name becomes a
      fragment of an addition or is covered by an ignore entry iff it was settled, and no fragment that
      is new to the channel is unknown upstream. */
  ghost predicate Coherent(row: Row, sel: Selection, up: Upstream, matches: Matcher) {
    CoherentAdds(row, sel, up, matches) && CoherentRemoves(row, sel, up)
  }

  ghost predicate CoherentAdds(row: Row, sel: Selection, up: Upstream, matches: Matcher) {
    forall m :: Open(row, up, m) ==>
      (m in Fragments(SelectedAdds(row, sel.adds)) || IgnoredAfter(row, sel, matches, m) <==>
          Settled(row, sel, matches, m))
  }

  ghost predicate CoherentRemoves(row: Row, sel: Selection, up: Upstream) {
    forall m :: m in Fragments(SelectedAdds(row, sel.adds)) && m !in Kept(row, sel) ==> !MissingUpstream(up, m)
  }

  /** The list read back after applying. */
  lemma ReadBack(row: Row, sel: Selection, now: int, up: Upstream, matches: Matcher)
    requires Synced(row, up, matches)
    ensures ParseModels(Applied(row, sel, now).models) ==
            Kept(row, sel) + Filter(Fragments(SelectedAdds(row, sel.adds)), x => x !in Kept(row, sel))
  {
    var l, a, kept := ParseModels(row.models), SelectedAdds(row, sel.adds), Kept(row, sel);
    ParseModelsCommaFree(row.models);
    FilterNormalized(l, x => x !in SelectedRemoves(row, sel.adds, sel.removes));
    NormalizeFixpoint(l);
    assert NextModels(row, sel) == kept + a by { NextModelsShape(row, sel, up, matches); }
    JoinAppendParse(kept, a);
    if l == NextModels(row, sel) {
      assert a == [] by {
        SelectedFacts(row, sel, up, matches);
        DetectedNames(row, up, matches);
      }
    }
  }

  lemma IgnoredAfterIff(row: Row, sel: Selection, matches: Matcher, m: string)
    ensures Ignores(NextIgnored(row, sel), matches, m) <==> IgnoredAfter(row, sel, matches, m)
  {
    NextIgnoredEntries(row, sel);
  }

  /** An upstream name is never among the removed ones, so it stays local if it was. */
  lemma LocalAfter(row: Row, sel: Selection, now: int, up: Upstream, matches: Matcher, m: string)
    requires Synced(row, up, matches) && m in Normalize(up.models)
    ensures m in ParseModels(Applied(row, sel, now).models) <==>
            m in ParseModels(row.models) || m in Fragments(SelectedAdds(row, sel.adds))
  {
    ReadBack(row, sel, now, up, matches);
    SelectedFacts(row, sel, up, matches);
    DetectIsFilter(row, up, matches);
  }

  /** Whether an upstream name is detected after applying. */
  lemma DetectedAfter(row: Row, sel: Selection, now: int, up: Upstream, matches: Matcher, m: string)
    requires Synced(row, up, matches) && m in Normalize(up.models)
    ensures var row' := Applied(row, sel, now);
            MissingLocally(ParseModels(row'.models), row'.settings.ignored, up, matches, m) <==>
            Open(row, up, m) && m !in Fragments(SelectedAdds(row, sel.adds)) && !IgnoredAfter(row, sel, matches, m)
  {
    LocalAfter(row, sel, now, up, matches, m);
    IgnoredAfterIff(row, sel, matches, m);
  }

  /** The pending list left over, as a filter of the upstream list. */
  lemma StoredAdds(row: Row, sel: Selection, now: int, up: Upstream, matches: Matcher)
    requires Synced(row, up, matches)
    ensures Applied(row, sel, now).settings.detected ==
            Filter(Normalize(up.models), m => Open(row, up, m) && !Settled(row, sel, matches, m))
  {
    var a, ig := SelectedAdds(row, sel.adds), SelectedAdds(row, sel.ignores);
    var l, d, u := ParseModels(row.models), row.settings.detected, Normalize(up.models);
    var before := m => MissingLocally(l, row.settings.ignored, up, matches, m);
    var left := x => x !in Normalize(a + ig);
    assert d == Filter(u, before) by { DetectIsFilter(row, up, matches); }
    assert Normalize(d) == d && Normalize(Normalize(d)) == d by {
      SelectedFacts(row, sel, up, matches);
      NormalizeFixpoint(d);
    }
    assert forall x :: left(x) == (x !in a && x !in ig) by {
      SelectedFacts(row, sel, up, matches);
      NormalizeAppend(a, ig);
    }
    Refilter(u, before, left, m => Open(row, up, m) && !Settled(row, sel, matches, m));
  }

  lemma FreshAddsIff(row: Row, sel: Selection, now: int, up: Upstream, matches: Matcher)
    requires Synced(row, up, matches)
    ensures DetectRow(Applied(row, sel, now), up, matches).0 == Applied(row, sel, now).settings.detected <==>
            CoherentAdds(row, sel, up, matches)
  {
    var row' := Applied(row, sel, now);
    var u := Normalize(up.models);
    var after := m => MissingLocally(ParseModels(row'.models), row'.settings.ignored, up, matches, m);
    var stored := m => Open(row, up, m) && !Settled(row, sel, matches, m);
    assert DetectRow(row', up, matches).0 == Filter(u, after) by { DetectIsFilter(row', up, matches); }
    StoredAdds(row, sel, now, up, matches);
    FilterEqualIff(u, after, stored);
    forall m | m in u
      ensures after(m) <==>
              Open(row, up, m) && m !in Fragments(SelectedAdds(row, sel.adds)) && !IgnoredAfter(row, sel, matches, m)
    {
      DetectedAfter(row, sel, now, up, matches, m);
    }
  }

  lemma FreshRemovesIff(row: Row, sel: Selection, now: int, up: Upstream, matches: Matcher)
    requires Synced(row, up, matches)
    ensures DetectRow(Applied(row, sel, now), up, matches).1 == Applied(row, sel, now).settings.removed <==>
            CoherentRemoves(row, sel, up)
  {
    var row' := Applied(row, sel, now);
    var l, r, kept := ParseModels(row.models), SelectedRemoves(row, sel.adds, sel.removes), Kept(row, sel);
    var gone, unselected := m => MissingUpstream(up, m), x => x !in r;
    var extra := Filter(Fragments(SelectedAdds(row, sel.adds)), x => x !in kept);
    assert row.settings.removed == Filter(l, gone) by { DetectIsFilter(row, up, matches); }
    assert DetectRow(row', up, matches).1 == Filter(kept + extra, gone) by {
      DetectIsFilter(row', up, matches);
      ReadBack(row, sel, now, up, matches);
    }
    assert row'.settings.removed == Filter(Filter(l, gone), unselected) by {
      SelectedFacts(row, sel, up, matches);
      NormalizeFixpoint(row.settings.removed);
      NormalizeFixpoint(r);
    }
    Refilter(l, gone, unselected, m => gone(m) && unselected(m));
    Refilter(l, unselected, gone, m => gone(m) && unselected(m));
    FilterAppend(kept, extra, gone);
    if CoherentRemoves(row, sel, up) {
      FilterNone(extra, gone);
    } else {
      var m :| m in Fragments(SelectedAdds(row, sel.adds)) && m !in kept && MissingUpstream(up, m);
      assert m in extra && m in Filter(extra, gone);
    }
  }

  /** THE INCREMENTAL LISTS ARE EXACT, for every selection. When the stored pending lists came from a detection, then
      after applying, the remaining lists equal, as sequences, a fresh detection of the new channel against
      the same upstream, if and only if the selection is coherent. */
  lemma AppliedIsSyncedIff(row: Row, sel: Selection, now: int, up: Upstream, matches: Matcher)
    requires Synced(row, up, matches)
    ensures Synced(Applied(row, sel, now), up, matches) <==> Coherent(row, sel, up, matches)
  {
    FreshAddsIff(row, sel, now, up, matches);
    FreshRemovesIff(row, sel, now, up, matches);
  }

  // ---------------------------------------------------------------- selections without patterns or commas

  /** No selected name would be read back as a pattern. */
  ghost predicate NoPatternSelected(row: Row, sel: Selection) {
    forall x :: x in SelectedAdds(row, sel.adds) || x in SelectedAdds(row, sel.ignores) ==> !(REGEX_PREFIX <= x)
  }

  /** Without selected patterns the new ignore list differs from the old one only on the selected names. */
  lemma IgnoreChange(row: Row, sel: Selection, matches: Matcher, m: string)
    requires NoPatternSelected(row, sel)
    ensures m !in SelectedAdds(row, sel.adds) ==>
              (IgnoredAfter(row, sel, matches, m) <==>
               Ignores(row.settings.ignored, matches, m) || m in SelectedAdds(row, sel.ignores))
    ensures m in SelectedAdds(row, sel.adds) && !Ignores(row.settings.ignored, matches, m) ==>
              !IgnoredAfter(row, sel, matches, m)
  {
    if m !in SelectedAdds(row, sel.adds) {
      if e :| e in Normalize(row.settings.ignored) && EntryIgnores(e, matches, m) {
        assert e !in SelectedAdds(row, sel.adds);
      }
      if m in SelectedAdds(row, sel.ignores) {
        assert EntryIgnores(m, matches, m);
      }
    }
  }

  /** Comma-free additions are their own fragments, and known upstream. */
  lemma CommaFreeFragments(row: Row, sel: Selection, up: Upstream, matches: Matcher)
    requires Synced(row, up, matches) && CommaFree(SelectedAdds(row, sel.adds))
    ensures Fragments(SelectedAdds(row, sel.adds)) == SelectedAdds(row, sel.adds)
    ensures CoherentRemoves(row, sel, up)
  {
    SelectedFacts(row, sel, up, matches);
    JoinParse(SelectedAdds(row, sel.adds));
    DetectedNames(row, up, matches);
  }

  /** When no selected name looks like a pattern, exactness comes down to commas. */
  lemma RemainingIsFreshDetection(row: Row, sel: Selection, now: int, up: Upstream, matches: Matcher)
    requires Synced(row, up, matches) && NoPatternSelected(row, sel)
    ensures Synced(Applied(row, sel, now), up, matches) <==> CommaFree(SelectedAdds(row, sel.adds))
  {
    AppliedIsSyncedIff(row, sel, now, up, matches);
    if CommaFree(SelectedAdds(row, sel.adds)) {
      CommaFreeFragments(row, sel, up, matches);
      forall m | Open(row, up, m)
        ensures m in Fragments(SelectedAdds(row, sel.adds)) || IgnoredAfter(row, sel, matches, m) <==>
                Settled(row, sel, matches, m)
      {
        IgnoreChange(row, sel, matches, m);
      }
    } else {
      CommaNameComesBack(row, sel, now, up, matches);
    }
  }

  /** A name with a comma is split when stored, so detection reports it again although it was applied. */
  lemma CommaNameComesBack(row: Row, sel: Selection, now: int, up: Upstream, matches: Matcher)
    requires Synced(row, up, matches) && NoPatternSelected(row, sel)
    requires !CommaFree(SelectedAdds(row, sel.adds))
    ensures var row' := Applied(row, sel, now);
            exists m :: m in DetectRow(row', up, matches).0 && m !in row'.settings.detected
  {
    var row' := Applied(row, sel, now);
    var a := SelectedAdds(row, sel.adds);
    var m :| m in a && ',' in m;
    assert m in Normalize(up.models) &&
        MissingLocally(ParseModels(row.models), row.settings.ignored, up, matches, m) by {
      SelectedFacts(row, sel, up, matches);
      DetectedNames(row, up, matches);
    }
    assert m !in Fragments(a) by { ParseModelsCommaFree(Join(a)); }
    IgnoreChange(row, sel, matches, m);
    DetectedAfter(row, sel, now, up, matches, m);
    DetectedNames(row', up, matches);
    StoredAdds(row, sel, now, up, matches);
  }

  /** When names look like patterns but hold no comma, exactness comes down to what the ignore entries cover: an
      upstream name that starts with "regex:" is stored as a pattern when it is ignored, so it may fail to
      match itself or may match other names. */
  lemma PatternNamesIff(row: Row, sel: Selection, now: int, up: Upstream, matches: Matcher)
    requires Synced(row, up, matches) && CommaFree(SelectedAdds(row, sel.adds))
    ensures Synced(Applied(row, sel, now), up, matches) <==> IgnoresAsSelected(row, sel, up, matches)
  {
    AppliedIsSyncedIff(row, sel, now, up, matches);
    CommaFreeFragments(row, sel, up, matches);
    AddsComeDownToIgnores(row, sel, up, matches);
  }

  /** Among the open names not selected for adding, the entries cover what was ignored before, what was selected for
      ignoring, and nothing else. */
  ghost predicate IgnoresAsSelected(row: Row, sel: Selection, up: Upstream, matches: Matcher) {
    forall m :: Open(row, up, m) && m !in SelectedAdds(row, sel.adds) ==>
      (IgnoredAfter(row, sel, matches, m) <==>
       Ignores(row.settings.ignored, matches, m) || m in SelectedAdds(row, sel.ignores))
  }

  lemma AddsComeDownToIgnores(row: Row, sel: Selection, up: Upstream, matches: Matcher)
    requires Fragments(SelectedAdds(row, sel.adds)) == SelectedAdds(row, sel.adds)
    ensures CoherentAdds(row, sel, up, matches) <==> IgnoresAsSelected(row, sel, up, matches)
  {
    if CoherentAdds(row, sel, up, matches) {
      forall m | Open(row, up, m) && m !in SelectedAdds(row, sel.adds)
        ensures IgnoredAfter(row, sel, matches, m) <==>
                Ignores(row.settings.ignored, matches, m) || m in SelectedAdds(row, sel.ignores)
      {
        assert m in Fragments(SelectedAdds(row, sel.adds)) || IgnoredAfter(row, sel, matches, m) <==>
            Settled(row, sel, matches, m);
      }
    }
  }

  /** An ignored name that no entry covers is reported again. */
  lemma UncoveredComesBack(row: Row, sel: Selection, now: int, up: Upstream, matches: Matcher, m: string)
    requires Synced(row, up, matches) && CommaFree(SelectedAdds(row, sel.adds))
    requires m in SelectedAdds(row, sel.ignores) && m !in SelectedAdds(row, sel.adds) &&
             !IgnoredAfter(row, sel, matches, m)
    ensures !Synced(Applied(row, sel, now), up, matches)
  {
    SelectedFacts(row, sel, up, matches);
    DetectedNames(row, up, matches);
    assert Open(row, up, m);
    PatternNamesIff(row, sel, now, up, matches);
  }

  lemma ExampleSelection(row: Row, n: string)
    requires n != "" && Trimmed(n) && row.settings.detected == [n]
    ensures SelectedAdds(row, []) == [] && SelectedAdds(row, [n]) == [n]
  {
    NormalizeFixpoint([n]);
    FilterAll([n], x => x in Normalize(Normalize([n])));
  }

  /** A channel without models or ignore entries whose one pending name n is all the upstream offers. */
  predicate OneNew(row: Row, up: Upstream, n: string) {
    && row.models == "" && row.settings.ignored == [] && row.settings.detected == [n] && row.settings.removed == []
    && up.models == [n] && up.mapping == map[]
  }

  lemma OneNewSynced(row: Row, up: Upstream, n: string, matches: Matcher)
    requires OneNew(row, up, n) && n != "" && Trimmed(n)
    ensures Synced(row, up, matches)
  {
    NormalizeFixpoint([n]);
    DetectIsFilter(row, up, matches);
    FilterAll([n], m => MissingLocally(ParseModels(row.models), row.settings.ignored, up, matches, m));
  }

  lemma OneNewUncovered(row: Row, sel: Selection, n: string, matches: Matcher)
    requires Normalize(row.settings.ignored) == [] && SelectedAdds(row, sel.ignores) == [n]
    requires REGEX_PREFIX <= n && !matches(TrimSpace(n[|REGEX_PREFIX|..]), n)
    ensures !IgnoredAfter(row, sel, matches, n)
  {
  }

  /** It does happen: on an empty channel whose upstream offers one model, called "regex:" and a
      pattern that does not match the whole name (such as "regex:^b"), ignoring it is undone. */
  lemma PatternNameExample(row: Row, up: Upstream, sel: Selection, n: string, matches: Matcher)
    requires OneNew(row, up, n) && sel.adds == sel.removes == [] && sel.ignores == [n]
    requires REGEX_PREFIX <= n && Trimmed(n) && !matches(TrimSpace(n[|REGEX_PREFIX|..]), n)
    ensures Synced(row, up, matches) && !Synced(Applied(row, sel, 2), up, matches)
  {
    assert Synced(row, up, matches) by { OneNewSynced(row, up, n, matches); }
    assert SelectedAdds(row, sel.adds) == [] && SelectedAdds(row, sel.ignores) == [n] by { ExampleSelection(row, n); }
    assert !IgnoredAfter(row, sel, matches, n) by {
      NormalizeFixpoint([]);
      OneNewUncovered(row, sel, n, matches);
    }
    UncoveredComesBack(row, sel, 2, up, matches, n);
  }

  lemma OneCommaSelected(row: Row, sel: Selection, n: string)
    requires SelectedAdds(row, sel.adds) == [n] && SelectedAdds(row, sel.ignores) == []
    requires ',' in n && !(REGEX_PREFIX <= n)
    ensures NoPatternSelected(row, sel) && !CommaFree(SelectedAdds(row, sel.adds))
  {
    assert n in SelectedAdds(row, sel.adds);
  }

  /** And with any name that holds a comma: adding it is undone. */
  lemma CommaNameExample(row: Row, up: Upstream, sel: Selection, n: string, matches: Matcher)
    requires OneNew(row, up, n) && sel.adds == [n] && sel.ignores == sel.removes == []
    requires ',' in n && Trimmed(n) && !(REGEX_PREFIX <= n)
    ensures Synced(row, up, matches) && !Synced(Applied(row, sel, 2), up, matches)
  {
    assert Synced(row, up, matches) by { OneNewSynced(row, up, n, matches); }
    assert SelectedAdds(row, sel.adds) == [n] && SelectedAdds(row, sel.ignores) == [] by { ExampleSelection(row, n); }
    OneCommaSelected(row, sel, n);
    RemainingIsFreshDetection(row, sel, 2, up, matches);
  }

  /** The selection of everything pending. */
  function Everything(row: Row): Selection {
    Selection(row.settings.detected, [], row.settings.removed)
  }

  lemma EverythingStored(row: Row, now: int, up: Upstream, matches: Matcher)
    requires Synced(row, up, matches)
    ensures var settings := Applied(row, Everything(row), now).settings;
            settings.detected == [] && settings.removed == []
  {
    var sel := Everything(row);
    SelectedFacts(row, sel, up, matches);
    NormalizeFixpoint(row.settings.detected);
    NormalizeFixpoint(row.settings.removed);
    var a, r := SelectedAdds(row, sel.adds), SelectedRemoves(row, sel.adds, sel.removes);
    assert SelectedAdds(row, sel.ignores) == [] && a + [] == a;
    NormalizeFixpoint(a);
    NormalizeFixpoint(r);
    FilterNone(row.settings.detected, x => x !in Normalize(a + []));
    FilterNone(row.settings.removed, x => x !in Normalize(r));
  }

  /** Selecting everything empties both stored lists, and the next detection is empty too if and only if the selection
      is coherent. */
  lemma ApplyAllConverges(row: Row, now: int, up: Upstream, matches: Matcher)
    requires Synced(row, up, matches)
    ensures var row' := Applied(row, Everything(row), now);
            && row'.settings.detected == [] && row'.settings.removed == []
            && (DetectRow(row', up, matches) == ([], []) <==> Coherent(row, Everything(row), up, matches))
  {
    EverythingStored(row, now, up, matches);
    AppliedIsSyncedIff(row, Everything(row), now, up, matches);
  }

  /** No comma and no pattern among the pending names is enough for that. */
  lemma PlainEverythingCoherent(row: Row, up: Upstream, matches: Matcher)
    requires Synced(row, up, matches) && CommaFree(row.settings.detected)
    requires forall x :: x in row.settings.detected ==> !(REGEX_PREFIX <= x)
    ensures Coherent(row, Everything(row), up, matches)
  {
    var sel := Everything(row);
    SelectedFacts(row, sel, up, matches);
    AppliedIsSyncedIff(row, sel, 0, up, matches);
    RemainingIsFreshDetection(row, sel, 0, up, matches);
  }

  // ---------------------------------------------------------------- a whole history of one channel

  /** What one check sees: clock, the throttling interval, the fetch and the save. */
  datatype Check = Check(now: int, minInterval: int, force: bool, allowAuto: bool, fetchOk: bool, saveOk: bool)

  predicate Skipped(row: Row, c: Check) {
    !c.force && row.settings.lastCheck > 0 && c.now - row.settings.lastCheck < c.minInterval
  }

  /** The row checkAndPersistChannelUpstreamModelUpdates leaves in the database. */
  function Checked(row: Row, c: Check, up: Upstream, matches: Matcher): Row {
    if Skipped(row, c) || !c.saveOk then row
    else if !c.fetchOk then row.(settings := row.settings.(lastCheck := c.now))
    else
      var (add, remove) := DetectRow(row, up, matches);
      if c.allowAuto && row.settings.autoSync && |add| > 0 then
        var origin := Normalize(ParseModels(row.models));
        var merged := Merged(origin, add);
        Row(if |merged| > |origin| then Join(merged) else row.models,
            row.settings.(lastCheck := c.now, detected := [], removed := remove))
      else
        row.(settings := row.settings.(lastCheck := c.now, detected := add, removed := remove))
  }

  predicate Completed(row: Row, c: Check) {
    !Skipped(row, c) && c.fetchOk && c.saveOk
  }

  /** Names this check adds by itself hold no comma. */
  predicate AutoAddsPlain(row: Row, c: Check, up: Upstream, matches: Matcher) {
    c.allowAuto && row.settings.autoSync ==> CommaFree(DetectRow(row, up, matches).0)
  }

  /** A completed check leaves exact lists, whatever the row held before, if and only if no name it adds by
      itself holds a comma. */
  lemma CheckedIsSyncedIff(row: Row, c: Check, up: Upstream, matches: Matcher)
    requires Completed(row, c)
    ensures Synced(Checked(row, c, up, matches), up, matches) <==> AutoAddsPlain(row, c, up, matches)
  {
    var row', add := Checked(row, c, up, matches), DetectRow(row, up, matches).0;
    if c.allowAuto && row.settings.autoSync && |add| > 0 {
      AutoSyncAdds(row, up, matches);
      if CommaFree(add) {
        AutoSyncReadBack(row, up, matches);
        AutoSyncDetect(row, row', up, matches);
      } else {
        var m :| m in add && ',' in m;
        DetectedNames(row, up, matches);
        DetectedNames(row', up, matches);
        ParseModelsCommaFree(row'.models);
        assert m in DetectRow(row', up, matches).0;
      }
    }
  }

  lemma AutoSyncDetect(row: Row, row': Row, up: Upstream, matches: Matcher)
    requires ParseModels(row'.models) == ParseModels(row.models) + DetectRow(row, up, matches).0
    requires row'.settings.ignored == row.settings.ignored
    ensures DetectRow(row', up, matches) == ([], DetectRow(row, up, matches).1)
  {
    var l, l', add := ParseModels(row.models), ParseModels(row'.models), DetectRow(row, up, matches).0;
    var u, gone := Normalize(up.models), m => MissingUpstream(up, m);
    var missing := m => MissingLocally(l', row'.settings.ignored, up, matches, m);
    DetectedNames(row, up, matches);
    assert DetectRow(row', up, matches) ==
        (Filter(u, missing), Filter(l', gone)) by { DetectIsFilter(row', up, matches); }
    assert DetectRow(row, up, matches).1 == Filter(l, gone) by { DetectIsFilter(row, up, matches); }
    assert Filter(l', gone) == Filter(l, gone) by {
      FilterAppend(l, add, gone);
      FilterNone(add, gone);
    }
    FilterNone(u, missing);
  }

  /** Detection, name by name. */
  lemma DetectedNames(row: Row, up: Upstream, matches: Matcher)
    ensures forall m :: m in DetectRow(row, up, matches).0 <==>
                        m in Normalize(up.models) &&
                        MissingLocally(ParseModels(row.models), row.settings.ignored, up, matches, m)
  {
    DetectIsFilter(row, up, matches);
  }

  /** Auto-sync appends the pending names. */
  lemma AutoSyncAdds(row: Row, up: Upstream, matches: Matcher)
    ensures var l, add := ParseModels(row.models), DetectRow(row, up, matches).0;
            Normalize(l) == l && Merged(l, add) == l + add && Normalized(l + add)
  {
    var l, add := ParseModels(row.models), DetectRow(row, up, matches).0;
    DetectIsFilter(row, up, matches);
    NormalizeFixpoint(l);
    NormalizeFixpoint(add);
    FilterAll(add, x => x !in Normalize(l));
    MergedIsUniq(l, add);
  }

  lemma AutoSyncReadBack(row: Row, up: Upstream, matches: Matcher)
    requires CommaFree(DetectRow(row, up, matches).0)
    ensures var all := ParseModels(row.models) + DetectRow(row, up, matches).0; ParseModels(Join(all)) == all
  {
    AutoSyncAdds(row, up, matches);
    ParseModelsCommaFree(row.models);
    JoinParse(ParseModels(row.models) + DetectRow(row, up, matches).0);
  }

  /** A check with the list it fetched, or the operator's selection. */
  datatype Op = DoCheck(c: Check, fetched: Upstream) | DoApply(sel: Selection, now: int, saveOk: bool)

  /** The stored row, and the upstream list of the last completed check. */
  datatype History = History(row: Row, up: Upstream)

  function Step(h: History, op: Op, matches: Matcher): History {
    match op
    case DoCheck(c, fetched) =>
      History(Checked(h.row, c, fetched, matches), if Completed(h.row, c) then fetched else h.up)
    case DoApply(sel, now, saveOk) => if saveOk then h.(row := Applied(h.row, sel, now)) else h
  }

  ghost predicate SafeOp(h: History, op: Op, matches: Matcher) {
    match op
    case DoCheck(c, fetched) => Completed(h.row, c) ==> AutoAddsPlain(h.row, c, fetched, matches)
    case DoApply(sel, _, saveOk) => saveOk ==> Coherent(h.row, sel, h.up, matches)
  }

  lemma StepSyncedIff(h: History, op: Op, matches: Matcher)
    requires Synced(h.row, h.up, matches)
    ensures var h' := Step(h, op, matches); Synced(h'.row, h'.up, matches) <==> SafeOp(h, op, matches)
  {
    match op {
      case DoCheck(c, fetched) =>
        if Completed(h.row, c) {
          CheckedIsSyncedIff(h.row, c, fetched, matches);
        }
      case DoApply(sel, now, saveOk) =>
        AppliedIsSyncedIff(h.row, sel, now, h.up, matches);
    }
  }

  ghost predicate StaysSynced(h: History, ops: seq<Op>, matches: Matcher)
    decreases |ops|
  {
    Synced(h.row, h.up, matches) && (ops != [] ==> StaysSynced(Step(h, ops[0], matches), ops[1..], matches))
  }

  ghost predicate AllSafe(h: History, ops: seq<Op>, matches: Matcher)
    decreases |ops|
  {
    ops != [] ==> SafeOp(h, ops[0], matches) && AllSafe(Step(h, ops[0], matches), ops[1..], matches)
  }

  /** WHOLE HISTORIES of checks, each with its own fetched list, and partial applications, failed fetches and failed
      saves included: the stored lists agree with a detection against the last fetched list at every point
      if and only if every operation was safe when it came. */
  lemma {:induction false} HistorySyncedIff(h: History, ops: seq<Op>, matches: Matcher)
    requires Synced(h.row, h.up, matches)
    ensures StaysSynced(h, ops, matches) <==> AllSafe(h, ops, matches)
    decreases |ops|
  {
    if ops != [] {
      StepSyncedIff(h, ops[0], matches);
      if SafeOp(h, ops[0], matches) {
        HistorySyncedIff(Step(h, ops[0], matches), ops[1..], matches);
      }
    }
  }

  /** The names an operation really adds or ignores hold no comma and look like no pattern. */
  ghost predicate PlainOp(h: History, op: Op, matches: Matcher) {
    match op
    case DoCheck(c, fetched) => Completed(h.row, c) ==> AutoAddsPlain(h.row, c, fetched, matches)
    case DoApply(sel, _, saveOk) => saveOk ==> CommaFree(SelectedAdds(h.row, sel.adds)) && NoPatternSelected(h.row, sel)
  }

  ghost predicate AllPlain(h: History, ops: seq<Op>, matches: Matcher)
    decreases |ops|
  {
    ops != [] ==> PlainOp(h, ops[0], matches) && AllPlain(Step(h, ops[0], matches), ops[1..], matches)
  }

  /** In particular it is enough that no name really added or ignored holds a comma or looks like a pattern. */
  lemma {:induction false} HistoryStaysSynced(h: History, ops: seq<Op>, matches: Matcher)
    requires Synced(h.row, h.up, matches) && AllPlain(h, ops, matches)
    ensures StaysSynced(h, ops, matches)
    decreases |ops|
  {
    if ops != [] {
      StepSyncedIff(h, ops[0], matches);
      if ops[0].DoApply? && ops[0].saveOk {
        RemainingIsFreshDetection(h.row, ops[0].sel, ops[0].now, h.up, matches);
      }
      HistoryStaysSynced(Step(h, ops[0], matches), ops[1..], matches);
    }
  }

  // ---------------------------------------------------------------- redirects over whole histories

  /** The stored lists respect the redirects: no source is listed for removal and no target for adding. */
  ghost predicate RespectsRedirects(row: Row, mapping: map<string, string>) {
    && Normalized(row.settings.detected) && Normalized(row.settings.removed)
    && (forall source :: source in mapping ==>
          source !in row.settings.removed && mapping[source] !in row.settings.detected)
  }

  lemma DetectionRespects(row: Row, up: Upstream, matches: Matcher)
    ensures var (add, remove) := DetectRow(row, up, matches);
            && Normalized(add) && Normalized(remove)
            && (forall source :: source in up.mapping ==> source !in remove && up.mapping[source] !in add)
  {
    DetectIsFilter(row, up, matches);
    var (add, remove) := DetectRow(row, up, matches);
    forall source | source in up.mapping ensures source !in remove && up.mapping[source] !in add {
      DetectionWrittenOut(row, up, matches, source);
      DetectionWrittenOut(row, up, matches, up.mapping[source]);
    }
  }

  lemma ApplyRespects(row: Row, sel: Selection, now: int, mapping: map<string, string>)
    requires RespectsRedirects(row, mapping)
    ensures RespectsRedirects(Applied(row, sel, now), mapping)
  {
    var d, r := row.settings.detected, row.settings.removed;
    NormalizeFixpoint(d);
    NormalizeFixpoint(r);
    SubtractNormalized(d, SelectedAdds(row, sel.adds) + SelectedAdds(row, sel.ignores));
    SubtractNormalized(r, SelectedRemoves(row, sel.adds, sel.removes));
  }

  /** A local name that is not listed for removal stays local through any selection. */
  lemma UnlistedStays(row: Row, sel: Selection, now: int, m: string)
    requires Normalized(row.settings.removed) && m in ParseModels(row.models) && m !in row.settings.removed
    ensures m in ParseModels(Applied(row, sel, now).models)
  {
    var l, next := ParseModels(row.models), NextModels(row, sel);
    ParseModelsCommaFree(row.models);
    NormalizeFixpoint(l);
    NormalizeFixpoint(row.settings.removed);
    if l != next {
      NextKeepsUnlisted(row, sel, m);
      NameSurvives(next, m);
    }
  }

  lemma ApplySelectedKeeps(origin: seq<string>, adds: seq<string>, removes: seq<string>, m: string)
    requires Normalized(origin) && Normalized(removes) && m in origin && m !in removes
    ensures m in ApplySelected(origin, adds, removes)
  {
    var a := Normalize(adds);
    NormalizeFixpoint(origin);
    NormalizeFixpoint(removes);
    MergedIsUniq(origin, a);
    SubtractNormalized(removes, a);
    NormalizeFixpoint(Subtract(removes, a));
    SubtractNormalized(Merged(origin, a), Subtract(removes, a));
  }

  lemma SelectedRemovesListed(row: Row, sel: Selection)
    requires Normalized(row.settings.removed)
    ensures Normalized(SelectedRemoves(row, sel.adds, sel.removes))
    ensures forall x :: x in SelectedRemoves(row, sel.adds, sel.removes) ==> x in row.settings.removed
  {
    NormalizeFixpoint(row.settings.removed);
    FilterNormalized(Normalize(sel.removes), x => x in Normalize(Normalize(row.settings.removed)));
    SubtractNormalized(Intersect(sel.removes, Normalize(row.settings.removed)), SelectedAdds(row, sel.adds));
  }

  lemma NextKeepsUnlisted(row: Row, sel: Selection, m: string)
    requires Normalized(row.settings.removed) && m in ParseModels(row.models) && m !in row.settings.removed
    ensures m in NextModels(row, sel)
  {
    var l := ParseModels(row.models);
    assert Normalized(l) by { ParseModelsCommaFree(row.models); }
    assert Normalize(l) == l by { NormalizeFixpoint(l); }
    SelectedRemovesListed(row, sel);
    ApplySelectedKeeps(l, SelectedAdds(row, sel.adds), SelectedRemoves(row, sel.adds, sel.removes), m);
  }

  /** A check never takes a local name away. */
  lemma CheckKeepsLocal(row: Row, c: Check, up: Upstream, matches: Matcher, m: string)
    requires m in ParseModels(row.models)
    ensures m in ParseModels(Checked(row, c, up, matches).models)
  {
    var l, add := ParseModels(row.models), DetectRow(row, up, matches).0;
    ParseModelsCommaFree(row.models);
    AutoSyncAdds(row, up, matches);
    NameSurvives(l + add, m);
  }

  /** Every check of the history sees the same redirects. */
  ghost predicate SameRedirects(ops: seq<Op>, mapping: map<string, string>) {
    forall i :: 0 <= i < |ops| && ops[i].DoCheck? ==> ops[i].fetched.mapping == mapping
  }

  lemma StepRespects(h: History, op: Op, matches: Matcher, mapping: map<string, string>)
    requires RespectsRedirects(h.row, mapping) && (op.DoCheck? ==> op.fetched.mapping == mapping)
    ensures RespectsRedirects(Step(h, op, matches).row, mapping)
    ensures forall source :: source in mapping && source in ParseModels(h.row.models) ==>
              source in ParseModels(Step(h, op, matches).row.models)
  {
    match op {
      case DoCheck(c, fetched) =>
        DetectionRespects(h.row, fetched, matches);
        assert Normalized([]);
        forall source | source in mapping && source in ParseModels(h.row.models)
          ensures source in ParseModels(Step(h, op, matches).row.models)
        {
          CheckKeepsLocal(h.row, c, fetched, matches, source);
        }
      case DoApply(sel, now, saveOk) =>
        ApplyRespects(h.row, sel, now, mapping);
        forall source | source in mapping && source in ParseModels(h.row.models)
          ensures source in ParseModels(Step(h, op, matches).row.models)
        {
          UnlistedStays(h.row, sel, now, source);
        }
    }
  }

  function After(h: History, ops: seq<Op>, matches: Matcher): History
    decreases |ops|
  {
    if ops == [] then h else After(Step(h, ops[0], matches), ops[1..], matches)
  }

  /** REDIRECTS ARE SAFE. Over every history with one set of redirects that starts with stored lists from a detection,
      whatever is selected and whichever fetches and saves fail, no redirect source is ever listed for
      removal or removed, and no redirect target is ever listed for adding. */
  lemma {:induction false} RedirectsSafe(h: History, ops: seq<Op>, matches: Matcher, mapping: map<string, string>)
    requires RespectsRedirects(h.row, mapping) && SameRedirects(ops, mapping)
    ensures RespectsRedirects(After(h, ops, matches).row, mapping)
    ensures forall source :: source in mapping && source in ParseModels(h.row.models) ==>
              source in ParseModels(After(h, ops, matches).row.models)
    decreases |ops|
  {
    if ops != [] {
      StepRespects(h, ops[0], matches, mapping);
      assert SameRedirects(ops[1..], mapping) by {
        assert forall i :: 0 <= i < |ops[1..]| ==> ops[1..][i] == ops[i + 1];
      }
      RedirectsSafe(Step(h, ops[0], matches), ops[1..], matches, mapping);
    }
  }

  /** Lists that come from a detection are such a start. */
  lemma SyncedRespects(h: History, matches: Matcher)
    requires Synced(h.row, h.up, matches)
    ensures RespectsRedirects(h.row, h.up.mapping)
  {
    DetectionRespects(h.row, h.up, matches);
  }

  // ---------------------------------------------------------------- the throttle

  /** A check that ran stamps its time, and until its interval has passed an unforced check changes nothing. */
  lemma ThrottleHolds(row: Row, c: Check, up: Upstream, again: Check, up': Upstream, matches: Matcher)
    requires c.force || row.settings.lastCheck <= 0 || c.now - row.settings.lastCheck >= c.minInterval
    requires c.saveOk && c.now > 0 && !again.force
    ensures var row' := Checked(row, c, up, matches);
            && row'.settings.lastCheck == c.now
            && (again.now - c.now < again.minInterval ==> Checked(row', again, up', matches) == row')
            && (again.now - c.now >= again.minInterval && again.saveOk ==>
                  Checked(row', again, up', matches).settings.lastCheck == again.now)
  {
  }

  /** What a completed check does to the stored models: nothing, or, with auto-sync allowed and on, it appends what is
      pending. */
  lemma CheckedModels(row: Row, c: Check, up: Upstream, matches: Matcher)
    requires Completed(row, c)
    ensures var models, add := Checked(row, c, up, matches).models, DetectRow(row, up, matches).0;
            && (!(c.allowAuto && row.settings.autoSync) ==> models == row.models)
            && (c.allowAuto && row.settings.autoSync && CommaFree(add) ==>
                  ParseModels(models) == ParseModels(row.models) + add)
  {
    var add := DetectRow(row, up, matches).0;
    AutoSyncAdds(row, up, matches);
    if CommaFree(add) {
      AutoSyncReadBack(row, up, matches);
    }
    assert ParseModels(row.models) + [] == ParseModels(row.models);
  }

  // ---------------------------------------------------------------- the object the handlers update

  datatype ApplyResult = ApplyResult(
    ok: bool, added: seq<string>, removed: seq<string>,
    remaining: seq<string>, remainingRemove: seq<string>, changed: bool)

  /** model.Channel: the loaded object with its fields, and the stored row behind it. */
  class Channel {
    var models: string
    var settings: Settings
    var stored: Row

    ghost predicate Loaded()
      reads this
    {
      stored == Row(models, settings)
    }

    constructor (row: Row)
      ensures Loaded() && stored == row
    {
      models, settings, stored := row.models, row.settings, row;
    }

    /** updateChannelUpstreamModelSettings: writes settings, and models only when they changed. */
    method Save(s: Settings, updateModels: bool, saveOk: bool)
      modifies this
      ensures models == old(models) && settings == s
      ensures stored == if !saveOk then old(stored)
                        else Row(if updateModels then models else old(stored).models, s)
    {
      settings := s;
      if saveOk {
        stored := Row(if updateModels then models else stored.models, s);
      }
    }

    method Apply(sel: Selection, now: int, saveOk: bool, abilitiesOk: bool) returns (r: ApplyResult)
      requires Loaded()
      modifies this
      ensures stored == if saveOk then Applied(old(stored), sel, now) else old(stored)
      ensures saveOk ==> Loaded()
      ensures r.ok == (saveOk && (r.changed ==> abilitiesOk))
      ensures saveOk ==> r.added == SelectedAdds(old(stored), sel.adds) &&
                         r.removed == SelectedRemoves(old(stored), sel.adds, sel.removes)
      ensures saveOk ==> r.changed == (ParseModels(old(stored).models) != NextModels(old(stored), sel))
      ensures saveOk ==> r.remaining == stored.settings.detected && r.remainingRemove == stored.settings.removed
    {
      ParseModelsCommaFree(models);
      NormalizeFixpoint(ParseModels(models));
      var s := settings;
      var pendingAdd, pendingRemove := Normalize(s.detected), Normalize(s.removed);
      var adds := Intersect(sel.adds, pendingAdd);
      var ignores := Intersect(sel.ignores, pendingAdd);
      var removes := Subtract(Intersect(sel.removes, pendingRemove), adds);
      var origin := Normalize(ParseModels(models));
      var next := ApplySelected(origin, adds, removes);
      var changed := origin != next;
      if changed {
        models := Join(next);
      }
      var ignored := MergeModelNames(s.ignored, ignores);
      if |adds| > 0 {
        ignored := Subtract(ignored, adds);
      }
      var remaining := Subtract(pendingAdd, adds + ignores);
      var remainingRemove := Subtract(pendingRemove, removes);
      s := s.(ignored := ignored, detected := remaining, removed := remainingRemove, lastCheck := now);
      Save(s, changed, saveOk);
      if !saveOk {
        return ApplyResult(false, [], [], [], [], false);
      }
      r := ApplyResult(changed ==> abilitiesOk, adds, removes, remaining, remainingRemove, changed);
    }

    method CheckAndPersist(c: Check, fetched: Upstream, matches: Matcher, abilitiesOk: bool)
      returns (ok: bool, changed: bool, autoAdded: nat)
      requires Loaded()
      modifies this
      ensures stored == Checked(old(stored), c, fetched, matches)
      ensures c.saveOk ==> Loaded()
      ensures ok == (Skipped(old(stored), c) || (c.fetchOk && c.saveOk && (changed ==> abilitiesOk)))
      ensures changed == (autoAdded > 0 && c.saveOk)
      ensures autoAdded ==
              if !Skipped(old(stored), c) && c.fetchOk && c.allowAuto && old(stored).settings.autoSync
              then |DetectRow(old(stored), fetched, matches).0| else 0
    {
      changed, autoAdded := false, 0;
      if !c.force && settings.lastCheck > 0 && c.now - settings.lastCheck < c.minInterval {
        return true, false, 0;
      }
      var s := settings.(lastCheck := c.now);
      if !c.fetchOk {
        Save(s, false, c.saveOk);
        return false, false, 0;
      }
      var (add, remove) := Detect(ParseModels(models), settings.ignored, fetched, matches);
      AutoSyncAdds(stored, fetched, matches);
      if c.allowAuto && s.autoSync && |add| > 0 {
        var origin := Normalize(ParseModels(models));
        var merged := MergeModelNames(origin, add);
        if |merged| > |origin| {
          models := Join(merged);
          autoAdded := |merged| - |origin|;
          changed := true;
        }
        s := s.(detected := []);
      } else {
        s := s.(detected := add);
      }
      s := s.(removed := remove);
      Save(s, changed, c.saveOk);
      changed := changed && c.saveOk;
      ok := c.saveOk && (changed ==> abilitiesOk);
    }
  }
}
