/** buildDifferences of controller/ratio_sync.go: the table of upstream prices that differ from the
    local ones. Floating-point numbers are modelled as reals. */
module PriceDifferences {

  /** An interface{} value as the decoder produces it; Nil is also "no value". */
  datatype Any = Nil | Float(r: real) | Integer(i: int) | Text(s: string) | Flag(b: bool)

  /** field -> model -> value. */
  type Data = map<string, map<string, Any>>

  datatype Channel = Channel(name: string, data: Data)

  /** dto.DifferenceItem. */
  datatype Item = Item(current: Any, upstreams: map<string, Any>, confidence: map<string, bool>)

  type Row = map<string, Item>
  /** model -> field -> item. */
  type Table = map<string, Row>

  const EPSILON := 0.000000001
  const SAME := Text("same")

  const NUMERIC_FIELDS := [
    "model_ratio", "completion_ratio", "cache_ratio", "create_cache_ratio",
    "image_ratio", "audio_ratio", "audio_completion_ratio", "model_price"]
  const FIELDS := NUMERIC_FIELDS + ["billing_mode", "billing_expr"]

  predicate NearlyEqual(a: real, b: real) {
    if a > b then a - b < EPSILON else b - a < EPSILON
  }

  predicate ValuesEqual(a: Any, b: Any) {
    if a.Float? && b.Float? then NearlyEqual(a.r, b.r) else a == b
  }

  /** normalizeSyncValue: whole numbers in numeric fields become floats. */
  function Normal(field: string, v: Any): Any {
    if field in NUMERIC_FIELDS && v.Integer? then Float(v.i as real) else v
  }

  function Column(d: Data, field: string): map<string, Any> {
    if field in d then d[field] else map[]
  }

  function Lookup(d: Data, field: string, model: string): Any {
    if model in Column(d, field) then Normal(field, Column(d, field)[model]) else Nil
  }

  predicate Offers(c: Channel, field: string, model: string) {
    model in Column(c.data, field)
  }

  // ---------------------------------------------------------------- the code, value by value

  /** What the loop stores for one channel. */
  function Cell(local: Any, c: Channel, field: string, model: string): Any {
    var up := Lookup(c.data, field, model);
    if Offers(c, field, model) && ValuesEqual(local, up) then SAME
    else if up == Nil && local == Nil then SAME
    else up
  }

  /** The channel sets hasDifference. */
  predicate SetsDifference(local: Any, c: Channel, field: string, model: string) {
    var up, cell := Lookup(c.data, field, model), Cell(local, c, field, model);
    (Offers(c, field, model) && local != Nil && !ValuesEqual(local, up)) || (local == Nil && Marks(cell))
  }

  predicate Marks(cell: Any) {
    cell != Nil && cell != SAME
  }

  predicate IsNumber(v: Any, x: real) {
    (v.Float? && NearlyEqual(v.r, x)) || (v.Integer? && NearlyEqual(v.i as real, x))
  }

  /** False for the placeholder pricing pair 37.5 and 1. */
  predicate Trusted(c: Channel, model: string) {
    var ratios, completions := Column(c.data, "model_ratio"), Column(c.data, "completion_ratio");
    !(model in ratios && model in completions && IsNumber(ratios[model], 37.5) && IsNumber(completions[model], 1.0))
  }

  /** Later channels overwrite earlier ones of the same name. */
  function Cells(local: Any, channels: seq<Channel>, field: string, model: string): map<string, Any> {
    if channels == [] then map[]
    else
      var k := |channels| - 1;
      Cells(local, channels[..k], field, model)[channels[k].name := Cell(local, channels[k], field, model)]
  }

  function Trusts(channels: seq<Channel>, model: string): map<string, bool> {
    if channels == [] then map[]
    else
      var k := |channels| - 1;
      Trusts(channels[..k], model)[channels[k].name := Trusted(channels[k], model)]
  }

  predicate Included(local: Data, channels: seq<Channel>, field: string, model: string) {
    var current := Lookup(local, field, model);
    if current != Nil then AnyDifference(current, channels, field, model) else AnyOffer(channels, field, model)
  }

  predicate AnyDifference(current: Any, channels: seq<Channel>, field: string, model: string) {
    exists c :: c in channels && SetsDifference(current, c, field, model)
  }

  predicate AnyOffer(channels: seq<Channel>, field: string, model: string) {
    exists c :: c in channels && Offers(c, field, model)
  }

  function RawItem(local: Data, channels: seq<Channel>, field: string, model: string): Item {
    var current := Lookup(local, field, model);
    Item(current, Cells(current, channels, field, model), Trusts(channels, model))
  }

  function RowOver(fields: seq<string>, local: Data, channels: seq<Channel>, model: string): Row {
    map f | f in fields && Included(local, channels, f, model) :: RawItem(local, channels, f, model)
  }

  function RawRow(local: Data, channels: seq<Channel>, model: string): Row {
    RowOver(FIELDS, local, channels, model)
  }

  function Models(local: Data, channels: seq<Channel>): set<string> {
    (set f, m | f in FIELDS && m in Column(local, f) :: m) +
    (set c, f, m | c in channels && f in FIELDS && m in Column(c.data, f) :: m)
  }

  function TableOver(models: set<string>, local: Data, channels: seq<Channel>): Table {
    map m | m in models && RawRow(local, channels, m) != map[] :: RawRow(local, channels, m)
  }

  function RawTable(local: Data, channels: seq<Channel>): Table {
    TableOver(Models(local, channels), local, channels)
  }

  /** channelHasDiff. */
  function Differing(t: Table): set<string> {
    set m, f, n | m in t && f in t[m] && n in t[m][f].upstreams && Marks(t[m][f].upstreams[n]) :: n
  }

  function PrunedItem(item: Item, keep: set<string>): Item {
    var drop := item.upstreams.Keys - keep;
    item.(upstreams := item.upstreams - drop, confidence := item.confidence - drop)
  }

  predicate Survives(item: Item) {
    exists n :: n in item.upstreams && item.upstreams[n] != SAME
  }

  function PrunedRow(row: Row, keep: set<string>): Row {
    map f | f in row && Survives(PrunedItem(row[f], keep)) :: PrunedItem(row[f], keep)
  }

  function PrunedTable(t: Table, keep: set<string>): Table {
    map m | m in t && PrunedRow(t[m], keep) != map[] :: PrunedRow(t[m], keep)
  }

  function Differences(local: Data, channels: seq<Channel>): Table {
    var raw := RawTable(local, channels);
    PrunedTable(raw, Differing(raw))
  }

  // ---------------------------------------------------------------- the nested loops

  method BuildDifferences(local: Data, channels: seq<Channel>) returns (result: Table)
    ensures result == Differences(local, channels)
  {
    var all := Models(local, channels);
    var raw := FirstPass(local, channels, all);
    var keep := MarkedChannels(raw);
    result := Prune(raw, keep);
  }

  method FirstPass(local: Data, channels: seq<Channel>, all: set<string>) returns (t: Table)
    ensures t == TableOver(all, local, channels)
  {
    t := map[];
    var todo := all;
    while todo != {}
      invariant todo <= all
      invariant t == TableOver(all - todo, local, channels)
      decreases todo
    {
      var model :| model in todo;
      TableGrows(all - todo, model, local, channels);
      assert all - (todo - {model}) == (all - todo) + {model};
      todo := todo - {model};
      var row := BuildRow(FIELDS, local, channels, model);
      if row != map[] {
        t := t[model := row];
      }
    }
  }

  lemma TableGrows(models: set<string>, model: string, local: Data, channels: seq<Channel>)
    ensures var row, t := RawRow(local, channels, model), TableOver(models, local, channels);
            TableOver(models + {model}, local, channels) == if row != map[] then t[model := row] else t
  {
  }

  method BuildRow(fields: seq<string>, local: Data, channels: seq<Channel>, model: string) returns (row: Row)
    ensures row == RowOver(fields, local, channels, model)
  {
    row := map[];
    for i := 0 to |fields|
      invariant row == RowOver(fields[..i], local, channels, model)
    {
      var item, wanted := BuildItem(local, channels, fields[i], model);
      RowGrows(fields[..i], fields[i], local, channels, model);
      assert fields[..i + 1] == fields[..i] + [fields[i]];
      if wanted {
        row := row[fields[i] := item];
      }
    }
    assert fields[..|fields|] == fields;
  }

  lemma RowGrows(fields: seq<string>, field: string, local: Data, channels: seq<Channel>, model: string)
    ensures var row := RowOver(fields, local, channels, model);
            RowOver(fields + [field], local, channels, model) ==
            if Included(local, channels, field, model)
            then row[field := RawItem(local, channels, field, model)] else row
  {
  }

  /** One (model, field) pair: the loop over the channels. */
  method BuildItem(local: Data, channels: seq<Channel>, field: string, model: string) returns (item: Item, wanted: bool)
    ensures item == RawItem(local, channels, field, model)
    ensures wanted == Included(local, channels, field, model)
  {
    var current := Lookup(local, field, model);
    var upstreams: map<string, Any> := map[];
    var confidence: map<string, bool> := map[];
    var hasUpstream, hasDifference := false, false;
    for i := 0 to |channels|
      invariant upstreams == Cells(current, channels[..i], field, model)
      invariant confidence == Trusts(channels[..i], model)
      invariant hasUpstream == AnyOffer(channels[..i], field, model)
      invariant hasDifference == AnyDifference(current, channels[..i], field, model)
    {
      var c := channels[i];
      assert channels[..i + 1] == channels[..i] + [c];
      ItemGrows(current, channels[..i], c, field, model);
      var up, offered, differs := Compare(current, c, field, model);
      hasUpstream := hasUpstream || offered;
      hasDifference := hasDifference || differs;
      upstreams := upstreams[c.name := up];
      confidence := confidence[c.name := Trusted(c, model)];
    }
    assert channels[..|channels|] == channels;
    item := Item(current, upstreams, confidence);
    wanted := if current != Nil then hasDifference else hasUpstream;
  }

  lemma ItemGrows(current: Any, channels: seq<Channel>, c: Channel, field: string, model: string)
    ensures Cells(current, channels + [c], field, model) ==
            Cells(current, channels, field, model)[c.name := Cell(current, c, field, model)]
    ensures Trusts(channels + [c], model) == Trusts(channels, model)[c.name := Trusted(c, model)]
    ensures AnyOffer(channels + [c], field, model) == (AnyOffer(channels, field, model) || Offers(c, field, model))
    ensures AnyDifference(current, channels + [c], field, model) ==
            (AnyDifference(current, channels, field, model) || SetsDifference(current, c, field, model))
  {
    assert (channels + [c])[..|channels|] == channels;
  }

  /** One channel's turn in that loop: its cell, and the two flags it may set. */
  method Compare(current: Any, c: Channel, field: string, model: string) returns (up: Any, offered: bool, differs: bool)
    ensures up == Cell(current, c, field, model)
    ensures offered == Offers(c, field, model)
    ensures differs == SetsDifference(current, c, field, model)
  {
    up, offered, differs := Nil, false, false;
    if model in Column(c.data, field) {
      up := Normal(field, Column(c.data, field)[model]);
      offered := true;
      if current != Nil && !ValuesEqual(current, up) {
        differs := true;
      } else if ValuesEqual(current, up) {
        up := SAME;
      }
    }
    if up == Nil && current == Nil {
      up := SAME;
    }
    if current == Nil && up != Nil && up != SAME {
      differs := true;
    }
  }

  method MarkedChannels(t: Table) returns (names: set<string>)
    ensures names == Differing(t)
  {
    names := {};
    var models := t.Keys;
    while models != {}
      invariant models <= t.Keys
      invariant forall n :: n in names <==>
        exists m, f :: m in t && m !in models && f in t[m] && n in t[m][f].upstreams && Marks(t[m][f].upstreams[n])
      decreases models
    {
      var m :| m in models;
      ghost var before, rest := names, models;
      models := models - {m};
      var fields := t[m].Keys;
      while fields != {}
        invariant fields <= t[m].Keys
        invariant forall n :: n in names <==>
          (n in before ||
           exists f :: f in t[m] && f !in fields && n in t[m][f].upstreams && Marks(t[m][f].upstreams[n]))
        decreases fields
      {
        var f :| f in fields;
        fields := fields - {f};
        names := names + set n | n in t[m][f].upstreams && Marks(t[m][f].upstreams[n]);
      }
    }
  }

  function PrunedOver(models: set<string>, t: Table, keep: set<string>): Table {
    map m | m in models && m in t && PrunedRow(t[m], keep) != map[] :: PrunedRow(t[m], keep)
  }

  lemma PrunedGrows(models: set<string>, model: string, t: Table, keep: set<string>)
    requires model in t
    ensures var row, done := PrunedRow(t[model], keep), PrunedOver(models, t, keep);
            PrunedOver(models + {model}, t, keep) == if row != map[] then done[model := row] else done
  {
  }

  method Prune(t: Table, keep: set<string>) returns (result: Table)
    ensures result == PrunedTable(t, keep)
  {
    result := map[];
    var models, done := t.Keys, {};
    while models != {}
      invariant models + done == t.Keys
      invariant result == PrunedOver(done, t, keep)
      decreases models
    {
      var m :| m in models;
      models := models - {m};
      PrunedGrows(done, m, t, keep);
      done := done + {m};
      var row := PruneRow(t[m], keep);
      if row != map[] {
        result := result[m := row];
      }
    }
    assert PrunedOver(t.Keys, t, keep) == PrunedTable(t, keep);
  }

  method PruneRow(row: Row, keep: set<string>) returns (result: Row)
    ensures result == PrunedRow(row, keep)
  {
    result := map[];
    var fields := row.Keys;
    while fields != {}
      invariant fields <= row.Keys
      invariant result ==
                map f | f in row && f !in fields && Survives(PrunedItem(row[f], keep)) :: PrunedItem(row[f], keep)
      decreases fields
    {
      var f :| f in fields;
      fields := fields - {f};
      var item := PrunedItem(row[f], keep);
      if Survives(item) {
        result := result[f := item];
      }
    }
  }

  // ---------------------------------------------------------------- the exact characterisation

  ghost predicate UniqueNames(channels: seq<Channel>) {
    forall c, c' :: c in channels && c' in channels && c.name == c'.name ==> c == c'
  }

  /** The channel offers a value where local has none or a different one. */
  predicate Differs(local: Data, c: Channel, field: string, model: string) {
    Offers(c, field, model) && !ValuesEqual(Lookup(local, field, model), Lookup(c.data, field, model))
  }

  predicate SomeDiffers(local: Data, channels: seq<Channel>, field: string, model: string) {
    exists c :: c in channels && Differs(local, c, field, model)
  }

  ghost predicate DiffersSomewhere(local: Data, c: Channel) {
    exists f, m :: f in FIELDS && Differs(local, c, f, m)
  }

  /** The specified cell: the differing value, "same", or nil when only the local side has a value. */
  function SpecCell(local: Data, c: Channel, field: string, model: string): Any {
    if Differs(local, c, field, model) then Lookup(c.data, field, model)
    else if Offers(c, field, model) || Lookup(local, field, model) == Nil then SAME
    else Nil
  }

  /** The channel differs somewhere by a value that is neither null nor the text "same". */
  ghost predicate Shown(local: Data, c: Channel) {
    exists f, m :: f in FIELDS && Differs(local, c, f, m) && Marks(Lookup(c.data, f, m))
  }

  /** Some shown channel has something other than "same" to say about this field of this model. */
  ghost predicate Visible(local: Data, channels: seq<Channel>, field: string, model: string) {
    exists c :: c in channels && Shown(local, c) && SpecCell(local, c, field, model) != SAME
  }

  /** The computed cell is the specified one, and it marks its channel iff it is a real difference. */
  lemma CellIsSpec(local: Data, c: Channel, field: string, model: string)
    ensures var cell := Cell(Lookup(local, field, model), c, field, model);
            && cell == SpecCell(local, c, field, model)
            && (Marks(cell) <==> Differs(local, c, field, model) && Marks(Lookup(c.data, field, model)))
  {
  }

  function Names(channels: seq<Channel>): set<string> {
    set c | c in channels :: c.name
  }

  lemma {:induction false} CellKeys(local: Any, channels: seq<Channel>, field: string, model: string)
    ensures Cells(local, channels, field, model).Keys == Names(channels)
    ensures Trusts(channels, model).Keys == Names(channels)
  {
    if channels != [] {
      var k := |channels| - 1;
      CellKeys(local, channels[..k], field, model);
      assert channels == channels[..k] + [channels[k]];
      assert Names(channels) == Names(channels[..k]) + {channels[k].name};
    }
  }

  lemma {:induction false} CellAt(local: Any, channels: seq<Channel>, field: string, model: string, c: Channel)
    requires c in channels && forall d :: d in channels && d.name == c.name ==> d == c
    ensures c.name in Cells(local, channels, field, model) && c.name in Trusts(channels, model)
    ensures Cells(local, channels, field, model)[c.name] == Cell(local, c, field, model)
    ensures Trusts(channels, model)[c.name] == Trusted(c, model)
  {
    var k := |channels| - 1;
    assert channels == channels[..k] + [channels[k]];
    if channels[k] != c {
      assert channels[k] in channels;
      CellAt(local, channels[..k], field, model, c);
    }
  }

  /** The first pass takes every field with a difference; what else it takes has only "same" cells. */
  lemma IncludedFacts(local: Data, channels: seq<Channel>, field: string, model: string)
    ensures SomeDiffers(local, channels, field, model) ==> Included(local, channels, field, model)
    ensures Included(local, channels, field, model) && !SomeDiffers(local, channels, field, model) ==>
              forall c :: c in channels ==> SpecCell(local, c, field, model) == SAME
  {
  }

  lemma RawEntry(local: Data, channels: seq<Channel>, field: string, model: string)
    ensures var t := RawTable(local, channels);
            (model in t && field in t[model]) <==> field in FIELDS && Included(local, channels, field, model)
    ensures var t := RawTable(local, channels);
            model in t && field in t[model] ==> t[model][field] == RawItem(local, channels, field, model)
  {
    if field in FIELDS && Included(local, channels, field, model) {
      var c :| c in channels && Offers(c, field, model);
      assert model in Models(local, channels);
      assert field in RawRow(local, channels, model);
    }
  }

  /** The kept columns are the shown channels. */
  lemma ShownIff(local: Data, channels: seq<Channel>, n: string)
    requires UniqueNames(channels)
    ensures n in Differing(RawTable(local, channels)) <==> exists c :: c in channels && c.name == n && Shown(local, c)
  {
    var t := RawTable(local, channels);
    if n in Differing(t) {
      var m, f :| m in t && f in t[m] && n in t[m][f].upstreams && Marks(t[m][f].upstreams[n]);
      RawEntry(local, channels, f, m);
      CellKeys(Lookup(local, f, m), channels, f, m);
      var c :| c in channels && c.name == n;
      CellAt(Lookup(local, f, m), channels, f, m, c);
      CellIsSpec(local, c, f, m);
    }
    if c :| c in channels && c.name == n && Shown(local, c) {
      var f, m :| f in FIELDS && Differs(local, c, f, m) && Marks(Lookup(c.data, f, m));
      IncludedFacts(local, channels, f, m);
      RawEntry(local, channels, f, m);
      CellAt(Lookup(local, f, m), channels, f, m, c);
      CellIsSpec(local, c, f, m);
    }
  }

  /** The item of one (model, field) pair after the columns of unshown channels are deleted. */
  function ShownItem(local: Data, channels: seq<Channel>, field: string, model: string): Item {
    PrunedItem(RawItem(local, channels, field, model), Differing(RawTable(local, channels)))
  }

  /** A number within a billionth of x, stored as a float or as a whole number. */
  predicate About(v: Any, x: real) {
    match v
    case Float(r) => -0.000000001 < r - x < 0.000000001
    case Integer(i) => -0.000000001 < i as real - x < 0.000000001
    case _ => false
  }

  /** The channel offers the placeholder prices for the model: a model ratio of 37.5 and a completion ratio of 1. */
  predicate Placeholder(c: Channel, model: string) {
    && "model_ratio" in c.data && model in c.data["model_ratio"] && About(c.data["model_ratio"][model], 37.5)
    && "completion_ratio" in c.data && model in c.data["completion_ratio"]
    && About(c.data["completion_ratio"][model], 1.0)
  }

  lemma TrustedIff(c: Channel, model: string)
    ensures Trusted(c, model) <==> !Placeholder(c, model)
  {
  }

  /** Two offered values are the same: numbers less than a billionth apart, whole numbers counting as numbers in the
      numeric fields, and everything else equal. */
  predicate SameValue(field: string, a: Any, b: Any) {
    if IsNumeric(field, a) && IsNumeric(field, b) then -0.000000001 < AsReal(a) - AsReal(b) < 0.000000001 else a == b
  }

  predicate IsNumeric(field: string, v: Any) {
    v.Float? || (v.Integer? && field !in {"billing_mode", "billing_expr"})
  }

  function AsReal(v: Any): real {
    match v
    case Float(r) => r
    case Integer(i) => i as real
    case _ => 0.0
  }

  /** What differing means, written out. */
  lemma DiffersWrittenOut(local: Data, c: Channel, field: string, model: string)
    requires field in FIELDS
    ensures Differs(local, c, field, model) <==>
            && field in c.data && model in c.data[field]
            && (if field in local && model in local[field]
                then !SameValue(field, local[field][model], c.data[field][model])
                else c.data[field][model] != Nil)
  {
  }

  /** The fields of the table. */
  lemma FieldsWrittenOut(field: string)
    ensures field in FIELDS <==>
            field in {"model_ratio", "completion_ratio", "cache_ratio", "create_cache_ratio", "image_ratio",
                      "audio_ratio", "audio_completion_ratio", "model_price", "billing_mode", "billing_expr"}
  {
  }

  /** The columns are the shown channels. */
  ghost predicate ColumnsExact(local: Data, channels: seq<Channel>, item: Item) {
    && (forall n :: n in item.upstreams <==> exists c :: c in channels && c.name == n && Shown(local, c))
    && item.confidence.Keys == item.upstreams.Keys
  }

  /** Every cell and confidence flag is the specified one. */
  ghost predicate CellsExact(local: Data, channels: seq<Channel>, field: string, model: string, item: Item) {
    forall c :: c in channels && c.name in item.upstreams ==>
      && item.upstreams[c.name] == SpecCell(local, c, field, model)
      && c.name in item.confidence && (item.confidence[c.name] <==> !Placeholder(c, model))
  }

  ghost predicate ItemExact(local: Data, channels: seq<Channel>, field: string, model: string, item: Item) {
    && item.current == Lookup(local, field, model)
    && ColumnsExact(local, channels, item)
    && CellsExact(local, channels, field, model, item)
  }

  lemma ShownColumns(local: Data, channels: seq<Channel>, field: string, model: string)
    requires UniqueNames(channels)
    ensures ColumnsExact(local, channels, ShownItem(local, channels, field, model))
  {
    var item := ShownItem(local, channels, field, model);
    CellKeys(Lookup(local, field, model), channels, field, model);
    assert item.upstreams.Keys == Names(channels) * Differing(RawTable(local, channels)) == item.confidence.Keys;
    forall n ensures n in item.upstreams <==> exists c :: c in channels && c.name == n && Shown(local, c) {
      ShownIff(local, channels, n);
    }
  }

  lemma ShownCell(local: Data, channels: seq<Channel>, field: string, model: string, c: Channel)
    requires UniqueNames(channels) && c in channels && c.name in ShownItem(local, channels, field, model).upstreams
    ensures var item := ShownItem(local, channels, field, model);
            && item.upstreams[c.name] == SpecCell(local, c, field, model)
            && c.name in item.confidence && (item.confidence[c.name] <==> !Placeholder(c, model))
  {
    CellAt(Lookup(local, field, model), channels, field, model, c);
    CellIsSpec(local, c, field, model);
    TrustedIff(c, model);
  }

  lemma ShownItemExact(local: Data, channels: seq<Channel>, field: string, model: string)
    requires UniqueNames(channels)
    ensures ItemExact(local, channels, field, model, ShownItem(local, channels, field, model))
  {
    var item := ShownItem(local, channels, field, model);
    ShownColumns(local, channels, field, model);
    forall c | c in channels && c.name in item.upstreams
      ensures item.upstreams[c.name] == SpecCell(local, c, field, model)
      ensures c.name in item.confidence && (item.confidence[c.name] <==> !Placeholder(c, model))
    {
      ShownCell(local, channels, field, model, c);
    }
  }

  /** An exact item survives iff it has something to show. */
  lemma SurvivesIff(local: Data, channels: seq<Channel>, field: string, model: string, item: Item)
    requires ItemExact(local, channels, field, model, item)
    ensures Survives(item) <==> Visible(local, channels, field, model)
  {
    if Survives(item) {
      var n :| n in item.upstreams && item.upstreams[n] != SAME;
      var c :| c in channels && c.name == n && Shown(local, c);
      assert SpecCell(local, c, field, model) != SAME;
    }
    if Visible(local, channels, field, model) {
      var c :| c in channels && Shown(local, c) && SpecCell(local, c, field, model) != SAME;
      assert c.name in item.upstreams && item.upstreams[c.name] != SAME;
    }
  }

  predicate HasEntry(t: Table, field: string, model: string) {
    model in t && field in t[model]
  }

  /** THE TABLE, CHARACTERISED for all channels with distinct names. An entry is there iff some channel differs and
      some shown channel has something to say; a model is listed iff it has an entry; columns, cells and
      confidence flags are the specified ones. */
  lemma TableCharacterised(local: Data, channels: seq<Channel>, field: string, model: string)
    requires UniqueNames(channels)
    ensures var t := Differences(local, channels);
            && (model in t ==> t[model] != map[])
            && (HasEntry(t, field, model) <==>
                  field in FIELDS && SomeDiffers(local, channels, field, model) &&
                      Visible(local, channels, field, model))
            && (HasEntry(t, field, model) ==> ItemExact(local, channels, field, model, t[model][field]))
  {
    var raw := RawTable(local, channels);
    var keep := Differing(raw);
    RawEntry(local, channels, field, model);
    IncludedFacts(local, channels, field, model);
    ShownItemExact(local, channels, field, model);
    SurvivesIff(local, channels, field, model, ShownItem(local, channels, field, model));
    if HasEntry(raw, field, model) && Survives(ShownItem(local, channels, field, model)) {
      assert field in PrunedRow(raw[model], keep);
    }
  }

  /** The table as one would describe it: an entry wherever some channel differs, with one column for every
      channel that differs somewhere. */
  ghost predicate TableExact(local: Data, channels: seq<Channel>) {
    var t := Differences(local, channels);
    forall f, m {:trigger HasEntry(t, f, m)} ::
      && (HasEntry(t, f, m) <==> f in FIELDS && SomeDiffers(local, channels, f, m))
      && (HasEntry(t, f, m) ==>
            forall c :: c in channels ==> (c.name in t[m][f].upstreams <==> DiffersSomewhere(local, c)))
  }

  /** THE TABLE IS EXACT if and only if every channel that differs is shown and no difference is drowned out by
      "same" cells. Nulls and texts "same" do harm only where they break this. */
  lemma TableExactIff(local: Data, channels: seq<Channel>)
    requires UniqueNames(channels)
    ensures TableExact(local, channels) <==>
            && (forall c :: c in channels && DiffersSomewhere(local, c) ==> Shown(local, c))
            && (forall f, m :: f in FIELDS && SomeDiffers(local, channels, f, m) ==> Visible(local, channels, f, m))
  {
    var t := Differences(local, channels);
    forall f, m
      ensures HasEntry(t, f, m) <==> f in FIELDS && SomeDiffers(local, channels, f, m) && Visible(local, channels, f, m)
      ensures HasEntry(t, f, m) ==>
                forall c :: c in channels ==> (c.name in t[m][f].upstreams <==> Shown(local, c))
    {
      TableCharacterised(local, channels, f, m);
    }
    if TableExact(local, channels) {
      forall c | c in channels && DiffersSomewhere(local, c) ensures Shown(local, c) {
        var f, m :| f in FIELDS && Differs(local, c, f, m);
        assert SomeDiffers(local, channels, f, m);
        assert HasEntry(t, f, m);
      }
    }
  }

  /** No channel offers a null or the text "same". */
  ghost predicate Clean(channels: seq<Channel>) {
    forall c, f, m :: c in channels && f in FIELDS && Offers(c, f, m) ==> Marks(Lookup(c.data, f, m))
  }

  /** In particular the table is exact, cells included, when no channel offers a null or the text "same". */
  lemma DifferencesExact(local: Data, channels: seq<Channel>, field: string, model: string)
    requires UniqueNames(channels) && Clean(channels)
    ensures TableExact(local, channels)
    ensures var t := Differences(local, channels);
            && (HasEntry(t, field, model) <==> field in FIELDS && SomeDiffers(local, channels, field, model))
            && (HasEntry(t, field, model) ==> ItemExact(local, channels, field, model, t[model][field]))
  {
    forall f, m | f in FIELDS && SomeDiffers(local, channels, f, m) ensures Visible(local, channels, f, m) {
      var c :| c in channels && Differs(local, c, f, m);
      assert Shown(local, c);
    }
    TableExactIff(local, channels);
    TableCharacterised(local, channels, field, model);
  }

  lemma NoEntry(local: Data, channels: seq<Channel>, field: string, model: string)
    requires UniqueNames(channels) && forall c :: c in channels ==> !Shown(local, c)
    ensures var t := Differences(local, channels); !HasEntry(t, field, model) && (model in t ==> t[model] != map[])
  {
    TableCharacterised(local, channels, field, model);
  }

  lemma NoEntries(t: Table)
    requires forall m, f {:trigger HasEntry(t, f, m)} :: !HasEntry(t, f, m) && (m in t ==> t[m] != map[])
    ensures t == map[]
  {
    forall m ensures m !in t {
      if m in t {
        assert !HasEntry(t, "", m);
        var f :| f in t[m];
        assert HasEntry(t, f, m);
        assert false;
      }
    }
  }

  /** With no channel shown the table is empty. */
  lemma NothingShown(local: Data, channels: seq<Channel>)
    requires UniqueNames(channels) && forall c :: c in channels ==> !Shown(local, c)
    ensures Differences(local, channels) == map[]
  {
    var t: Table := Differences(local, channels);
    assert forall m, f {:trigger HasEntry(t, f, m)} :: !HasEntry(t, f, m) && (m in t ==> t[m] != map[]) by {
      forall m, f ensures !HasEntry(t, f, m) && (m in t ==> t[m] != map[]) {
        NoEntry(local, channels, f, m);
      }
    }
    NoEntries(t);
  }

  /** A channel that differs from local only by a null or by the text "same" is not shown at all. */
  lemma SentinelHidden(field: string, model: string, current: Any, v: Any)
    requires field in FIELDS && !Marks(v) && Marks(current)
    requires Normal(field, current) == current
    ensures var local: Data, c := map[field := map[model := current]], Channel("up", map[field := map[model := v]]);
            Differs(local, c, field, model) && Differences(local, [c]) == map[]
  {
    var local: Data, c := map[field := map[model := current]], Channel("up", map[field := map[model := v]]);
    assert !Shown(local, c);
    NothingShown(local, [c]);
  }
}
