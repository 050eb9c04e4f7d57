/** The CSV formatter: a first pass over the resources fixes the header (the
    union of the columns they use, in a stable order), a second pass emits one
    line per resource, aligned on that header. */
module CsvFormat {
  import opened OrderedMap
  import opened Resources

  /** The structural columns, in their canonical order. */
  const FixedColumns: seq<Column> := [
    Id, Url, ResourceType, ResourceClass,
    ItemSetTitle, ItemTitle, MediaId,
    MediaType, MediaSize, MediaOriginalUrl
  ]

  /** The structural columns that are in every header. */
  const AlwaysColumns: seq<Column> := [Id, Url, ResourceClass]

  /** The columns switched on when an item is exported. */
  const ItemColumns: seq<Column> := [ItemSetTitle, MediaId, MediaOriginalUrl]

  /** The columns switched on when a media is exported. */
  const MediaColumns: seq<Column> :=
    [ItemTitle, MediaType, MediaSize, MediaOriginalUrl]

  // ---------------------------------------------------------------------------
  // The header: a reference definition

  /** The resource names, one per resource. */
  function Names(rs: seq<Resource>): (r: seq<Kind>)
    ensures |r| == |rs|
    ensures forall i :: 0 <= i < |rs| ==> r[i] == rs[i].kind
  {
    seq(|rs|, i requires 0 <= i < |rs| => rs[i].kind)
  }

  /** The distinct resource names, in first-seen order. */
  function Kinds(rs: seq<Resource>): seq<Kind> {
    AddNew([], Names(rs))
  }

  /** All value terms of all resources, resource after resource. */
  function AllTerms(rs: seq<Resource>): (r: seq<Column>)
    ensures forall k :: k in r <==> HasValues(rs, k)
  {
    if rs == [] then []
    else
      var rs0 := rs[..|rs| - 1];
      assert forall k :: HasValues(rs, k) <==> HasValues(rs0, k) || k in rs[|rs| - 1].valueTerms by {
        assert forall i :: 0 <= i < |rs0| ==> rs0[i] == rs[i];
      }
      AllTerms(rs0) + rs[|rs| - 1].valueTerms
  }

  /** Some resource has values under term k. */
  predicate HasValues(rs: seq<Resource>, k: Column) {
    exists i :: 0 <= i < |rs| && k in rs[i].valueTerms
  }

  /** Whether column k belongs to the header of the resources rs. */
  predicate Used(rs: seq<Resource>, k: Column) {
    || k in AlwaysColumns
    || HasValues(rs, k)
    || (k == ResourceType && |Kinds(rs)| > 1)
    || (k in ItemColumns && Items in Names(rs))
    || (k in MediaColumns && Media in Names(rs))
  }

  /** Every column that may appear, in header order: the structural columns,
      then the known property terms, then the other value terms in the order
      they are first met. */
  function Candidates(props: Terms, rs: seq<Resource>): seq<Column> {
    AddNew(AddNew(FixedColumns, props), AllTerms(rs))
  }

  function UsedColumns(props: Terms, rs: seq<Resource>): set<Column> {
    set k | k in Candidates(props, rs) && Used(rs, k)
  }

  /** The header the formatter writes for the resources rs, given the
      property terms known to the installation. */
  function HeaderColumns(props: Terms, rs: seq<Resource>): (h: seq<Column>)
    ensures Distinct(h)
  {
    DistinctFixed();
    AddNewKeepsDistinct(FixedColumns, props);
    AddNewKeepsDistinct(AddNew(FixedColumns, props), AllTerms(rs));
    AmongDistinct(Candidates(props, rs), UsedColumns(props, rs));
    Among(Candidates(props, rs), UsedColumns(props, rs))
  }

  /** No two header columns are written under the same key, so the header
      line and every row hold each key once. */
  lemma HeaderKeysDistinct(props: Terms, rs: seq<Resource>)
    ensures var h := HeaderColumns(props, rs);
      forall i, j | 0 <= i < j < |h| :: Name(h[i]) != Name(h[j])
  {
    var h := HeaderColumns(props, rs);
    forall i, j | 0 <= i < j < |h|
      ensures Name(h[i]) != Name(h[j])
    {
      assert At(h, i) != At(h, j);
      NameInjective(h[i], h[j]);
    }
  }

  lemma DistinctFixed()
    ensures Distinct(FixedColumns) && Distinct(ItemColumns) && Distinct(MediaColumns)
  {
  }

  /** Value terms that are neither structural columns nor known properties,
      each once, in the order they are first met. */
  function ValueOnlyTerms(props: Terms, rs: seq<Resource>): seq<Column> {
    AddNew([], Outside(AllTerms(rs), FixedColumns + props))
  }

  /** A column is in the header exactly when it is used: written for every
      resource, holding a value of some resource, resource_type when several
      kinds are exported, or a column of a kind that is exported. A known
      property term no resource has values under is left out. */
  lemma HeaderColumnIff(props: Terms, rs: seq<Resource>, k: Column)
    ensures k in HeaderColumns(props, rs) <==> Used(rs, k)
  {
    if Used(rs, k) && !HasValues(rs, k) {
      assert k in FixedColumns;
    }
  }

  /** The header lists the structural columns used, in their canonical
      order, then the known property terms used, in the order the
      installation lists them, then the other value terms, in the order they
      are first met. */
  lemma HeaderTiers(props: Terms, rs: seq<Resource>)
    ensures var used := UsedColumns(props, rs);
      HeaderColumns(props, rs) ==
        Among(FixedColumns, used) + Among(Outside(props, FixedColumns), used) + Among(ValueOnlyTerms(props, rs), used)
  {
    var used := UsedColumns(props, rs);
    var known := AddNew(FixedColumns, props);
    AddNewDistinct(FixedColumns, props);
    AddNewSplit(known, AllTerms(rs));
    OutsideAgree(AllTerms(rs), known, FixedColumns + props);
    AmongConcat(known, ValueOnlyTerms(props, rs), used);
    AmongConcat(FixedColumns, Outside(props, FixedColumns), used);
  }

  /** The header opens with o:id and url, then resource_type when it is
      used, then o:resource_class: every other column comes after them. */
  lemma HeaderStartsWithIdentity(props: Terms, rs: seq<Resource>)
    ensures var h := HeaderColumns(props, rs);
      && |h| >= 3 && h[0] == Id && h[1] == Url
      && (ResourceType in h ==> |h| >= 4 && h[2] == ResourceType && h[3] == ResourceClass)
      && (ResourceType !in h ==> h[2] == ResourceClass)
  {
    var rest := IdentitySplit(props, rs);
    IdentityUsed(props, rs);
    AmongIdentity(UsedColumns(props, rs));
    IdentityPrefix(HeaderColumns(props, rs), Among([Id, Url, ResourceType, ResourceClass], UsedColumns(props, rs)), rest);
  }

  lemma IdentitySplit(props: Terms, rs: seq<Resource>) returns (rest: seq<Column>)
    ensures HeaderColumns(props, rs) == Among([Id, Url, ResourceType, ResourceClass], UsedColumns(props, rs)) + rest
    ensures ResourceType !in rest
  {
    var used := UsedColumns(props, rs);
    var tail := Among(Outside(props, FixedColumns), used) + Among(ValueOnlyTerms(props, rs), used);
    HeaderTiers(props, rs);
    AmongFixed(used);
    rest := Among(FixedColumns[4..], used) + tail;
    RegroupTiers(HeaderColumns(props, rs), Among(FixedColumns, used), Among([Id, Url, ResourceType, ResourceClass], used),
            Among(FixedColumns[4..], used), Among(Outside(props, FixedColumns), used), Among(ValueOnlyTerms(props, rs), used));
    assert ResourceType !in tail;
  }

  lemma RegroupTiers(h: seq<Column>, fixed: seq<Column>, first: seq<Column>, others: seq<Column>, b: seq<Column>, c: seq<Column>)
    requires fixed == first + others && h == fixed + b + c
    ensures h == first + (others + (b + c))
  {
  }

  /** The four identity columns open the fixed columns, and resource_type
      is not among the others. */
  lemma AmongFixed(used: set<Column>)
    ensures Among(FixedColumns, used) == Among([Id, Url, ResourceType, ResourceClass], used) + Among(FixedColumns[4..], used)
    ensures ResourceType !in Among(FixedColumns[4..], used)
  {
    assert FixedColumns == [Id, Url, ResourceType, ResourceClass] + FixedColumns[4..];
    AmongConcat([Id, Url, ResourceType, ResourceClass], FixedColumns[4..], used);
    DistinctFixed();
    assert ResourceType !in FixedColumns[4..];
  }

  lemma IdentityUsed(props: Terms, rs: seq<Resource>)
    ensures Id in UsedColumns(props, rs) && Url in UsedColumns(props, rs)
    ensures ResourceClass in UsedColumns(props, rs)
  {
    assert Id in FixedColumns && Url in FixedColumns && ResourceClass in FixedColumns;
  }

  lemma AmongIdentity(used: set<Column>)
    requires Id in used && Url in used && ResourceClass in used
    ensures Among([Id, Url, ResourceType, ResourceClass], used) ==
      if ResourceType in used then [Id, Url, ResourceType, ResourceClass] else [Id, Url, ResourceClass]
  {
    assert [Id][..0] == [];
    assert Among([Id], used) == [Id];
    assert [Id, Url][..1] == [Id];
    assert Among([Id, Url], used) == [Id, Url];
    assert [Id, Url, ResourceType][..2] == [Id, Url];
    assert [Id, Url, ResourceType, ResourceClass][..3] == [Id, Url, ResourceType];
  }

  lemma IdentityPrefix(h: seq<Column>, first: seq<Column>, rest: seq<Column>)
    requires h == first + rest && ResourceType !in rest
    requires first == [Id, Url, ResourceType, ResourceClass] || first == [Id, Url, ResourceClass]
    ensures |h| >= 3 && h[0] == Id && h[1] == Url
    ensures ResourceType in h ==> |h| >= 4 && h[2] == ResourceType && h[3] == ResourceClass
    ensures ResourceType !in h ==> h[2] == ResourceClass
  {
    assert h[..|first|] == first;
    if first == [Id, Url, ResourceClass] {
      assert ResourceType !in first;
    }
  }

  // ---------------------------------------------------------------------------
  // The header: what the first pass computes

  /** The flags the first pass starts from: each structural column, on for the
      three that are always written, then each known property term, off. */
  function InitialFlags(props: Terms): (h: Assoc<Column, bool>)
    ensures h.keys == AddNew(FixedColumns, props)
    ensures forall k | k in h.keys :: h.vals[k] == (k in AlwaysColumns)
  {
    DistinctFixed();
    var fixed: Assoc<Column, bool> := Entries(FixedColumns, map k | k in FixedColumns :: k in AlwaysColumns);
    AddNewDistinct(FixedColumns, props);
    Union(fixed, FillList(props, false))
  }

  /** What holds of the flags and of the resource names after scanning the
      resources seen. */
  ghost predicate Scanned(props: Terms, flags: Assoc<Column, bool>, kinds: Assoc<Kind, bool>, seen: seq<Resource>) {
    FlagsScanned(props, flags, seen) && KindsScanned(kinds, seen)
  }

  /** The flags hold every candidate column, in header order; a column is on
      when it is always written or some resource has values under it. */
  ghost predicate FlagsScanned(props: Terms, flags: Assoc<Column, bool>, seen: seq<Resource>) {
    && flags.keys == AddNew(AddNew(FixedColumns, props), AllTerms(seen))
    && (forall k | k in flags.keys :: flags.vals[k] == (k in AlwaysColumns || HasValues(seen, k)))
  }

  /** The resource names met, each once, in first-seen order. */
  ghost predicate KindsScanned(kinds: Assoc<Kind, bool>, seen: seq<Resource>) {
    && kinds.keys == Kinds(seen)
    && (forall k | k in kinds.keys :: kinds.vals[k])
  }

  /** The terms with values in seen: those of the resources before the
      last one, and those of the last one. */
  lemma HasValuesLast(seen: seq<Resource>)
    requires seen != []
    ensures forall k :: HasValues(seen, k) <==> HasValues(seen[..|seen| - 1], k) || k in seen[|seen| - 1].valueTerms
  {
    var s0 := seen[..|seen| - 1];
    forall k | HasValues(seen, k) ensures HasValues(s0, k) || k in seen[|seen| - 1].valueTerms {
      var i :| 0 <= i < |seen| && k in seen[i].valueTerms;
      if i < |s0| { assert s0[i] == seen[i]; }
    }
    forall k | HasValues(s0, k) ensures HasValues(seen, k) {
      var i :| 0 <= i < |s0| && k in s0[i].valueTerms;
      assert seen[i] == s0[i];
    }
  }

  /** The names met in seen: those met before the last resource, then its own
      when it is new. */
  lemma KindsLast(seen: seq<Resource>)
    requires seen != []
    ensures var k0, r := Kinds(seen[..|seen| - 1]), seen[|seen| - 1];
      Kinds(seen) == if r.kind in k0 then k0 else k0 + [r.kind]
  {
    var s0 := seen[..|seen| - 1];
    assert Names(seen) == Names(s0) + [seen[|seen| - 1].kind];
    assert Names(seen)[..|seen| - 1] == Names(s0);
  }

  /** One resource of the first pass, on the flags: each of its value terms
      is switched on, or appended when new. */
  lemma ScanFlagsLast(props: Terms, flags: Assoc<Column, bool>, seen: seq<Resource>)
    requires seen != [] && FlagsScanned(props, flags, seen[..|seen| - 1])
    ensures FlagsScanned(props, Replace(flags, FillList(seen[|seen| - 1].valueTerms, true)), seen)
  {
    var s0, r := seen[..|seen| - 1], seen[|seen| - 1];
    AddNewConcat(AddNew(FixedColumns, props), AllTerms(s0), r.valueTerms);
    AddNewDistinct(flags.keys, r.valueTerms);
    HasValuesLast(seen);
  }

  /** The flags after scanning the resources seen, one resource at a time:
      the terms of each resource are switched on, new ones appended. */
  function ScanFlags(props: Terms, seen: seq<Resource>): Assoc<Column, bool> {
    if seen == [] then InitialFlags(props)
    else Replace(ScanFlags(props, seen[..|seen| - 1]), FillList(seen[|seen| - 1].valueTerms, true))
  }

  /** The resource names after scanning the resources seen. */
  function ScanKinds(seen: seq<Resource>): Assoc<Kind, bool> {
    if seen == [] then Empty()
    else Put(ScanKinds(seen[..|seen| - 1]), seen[|seen| - 1].kind, true)
  }

  /** The state the first pass starts from. */
  method ScanStart(props: Terms) returns (flags: Assoc<Column, bool>, kinds: Assoc<Kind, bool>)
    ensures flags == ScanFlags(props, []) && kinds == ScanKinds([])
  {
    flags := InitialFlags(props);
    kinds := Empty();
  }

  /** One resource of the first pass: its name is recorded, and each of its
      value terms is switched on, or appended when new. */
  method ScanResource(props: Terms, flags0: Assoc<Column, bool>, kinds0: Assoc<Kind, bool>,
                      ghost seen: seq<Resource>, r: Resource)
      returns (flags: Assoc<Column, bool>, kinds: Assoc<Kind, bool>)
    requires flags0 == ScanFlags(props, seen) && kinds0 == ScanKinds(seen)
    ensures flags == ScanFlags(props, seen + [r]) && kinds == ScanKinds(seen + [r])
  {
    SnocPrefix(seen, r);
    kinds := Put(kinds0, r.kind, true);
    flags := Replace(flags0, FillList(r.valueTerms, true));
  }

  /** The flags the first pass computes are what FlagsScanned describes. */
  lemma {:induction false} ScanFlagsSound(props: Terms, seen: seq<Resource>)
    ensures FlagsScanned(props, ScanFlags(props, seen), seen)
    decreases |seen|
  {
    if seen == [] {
      assert AllTerms([]) == [];
    } else {
      ScanFlagsSound(props, seen[..|seen| - 1]);
      ScanFlagsLast(props, ScanFlags(props, seen[..|seen| - 1]), seen);
    }
  }

  /** The names the first pass records are what KindsScanned describes. */
  lemma {:induction false} ScanKindsSound(seen: seq<Resource>)
    ensures KindsScanned(ScanKinds(seen), seen)
    decreases |seen|
  {
    if seen != [] {
      ScanKindsSound(seen[..|seen| - 1]);
      KindsLast(seen);
    }
  }

  /** The kind-specific columns switched on by the resource names met. */
  predicate KindOn(names: seq<Kind>, k: Column) {
    || (k in ItemColumns && Items in names)
    || (k in MediaColumns && Media in names)
  }

  /** Ids that the store resolves, in order. */
  function FoundIds(ids: seq<int>, store: map<int, Resource>): seq<int> {
    if ids == [] then []
    else FoundIds(ids[..|ids| - 1], store) + (if ids[|ids| - 1] in store then [ids[|ids| - 1]] else [])
  }

  /** The resources the store resolves the ids to, in order. */
  function Resolved(ids: seq<int>, store: map<int, Resource>): seq<Resource> {
    if ids == [] then []
    else Resolved(ids[..|ids| - 1], store) + (if ids[|ids| - 1] in store then [store[ids[|ids| - 1]]] else [])
  }

  /** Reading one more id resolves one more resource when the store has it. */
  lemma ResolvedNext(ids: seq<int>, i: int, store: map<int, Resource>)
    requires 0 <= i < |ids|
    ensures Resolved(ids[..i + 1], store) == Resolved(ids[..i], store) + (if ids[i] in store then [store[ids[i]]] else [])
  {
    PrefixNext(ids, i);
  }

  /** The ids kept are the ids the store resolves, in their order, and the
      resources scanned are what they resolve to. */
  lemma {:induction false} FoundIdsSpec(ids: seq<int>, store: map<int, Resource>)
    ensures forall id :: id in FoundIds(ids, store) <==> id in ids && id in store
    ensures |Resolved(ids, store)| == |FoundIds(ids, store)|
    ensures forall i :: 0 <= i < |FoundIds(ids, store)| ==>
      FoundIds(ids, store)[i] in store && Resolved(ids, store)[i] == store[FoundIds(ids, store)[i]]
    decreases |ids|
  {
    if ids != [] {
      var ids0 := ids[..|ids| - 1];
      FoundIdsSpec(ids0, store);
      assert forall id :: id in ids <==> id in ids0 || id == ids[|ids| - 1];
    }
  }

  /** Filtering keeps the order: the ids kept from `a + b` are those kept
      from `a`, then those kept from `b`, and so are the resources read. */
  lemma {:induction false} FoundIdsConcat(a: seq<int>, b: seq<int>, store: map<int, Resource>)
    ensures FoundIds(a + b, store) == FoundIds(a, store) + FoundIds(b, store)
    ensures Resolved(a + b, store) == Resolved(a, store) + Resolved(b, store)
    decreases |b|
  {
    if b == [] {
      assert a + b == a;
    } else {
      var b0, id := b[..|b| - 1], b[|b| - 1];
      FoundIdsConcat(a, b0, store);
      assert (a + b)[..|a + b| - 1] == a + b0;
      assert (a + b)[|a + b| - 1] == id;
      var k := if id in store then [id] else [];
      var v := if id in store then [store[id]] else [];
      assert FoundIds(a, store) + FoundIds(b0, store) + k == FoundIds(a, store) + (FoundIds(b0, store) + k);
      assert Resolved(a, store) + Resolved(b0, store) + v == Resolved(a, store) + (Resolved(b0, store) + v);
    }
  }

  /** Unsetting an id the store does not resolve: the ids kept so far, then
      the ids not yet read, move on by one. */
  lemma UnsetNext(ids: seq<int>, i: int, store: map<int, Resource>)
    requires 0 <= i < |ids| && ids[i] !in store
    ensures var kept := FoundIds(ids[..i], store);
      && FoundIds(ids[..i + 1], store) == kept
      && Resolved(ids[..i + 1], store) == Resolved(ids[..i], store)
      && (kept + ids[i..])[..|kept|] + (kept + ids[i..])[|kept| + 1..] == kept + ids[i + 1..]
  {
    assert ids[..i + 1][..i] == ids[..i];
    var kept := FoundIds(ids[..i], store);
    assert (kept + ids[i..])[|kept| + 1..] == ids[i + 1..];
  }

  /** Keeping an id the store resolves: it joins the ids kept so far and its
      resource the resources scanned. */
  lemma KeepNext(ids: seq<int>, i: int, store: map<int, Resource>)
    requires 0 <= i < |ids| && ids[i] in store
    ensures var kept := FoundIds(ids[..i], store);
      && FoundIds(ids[..i + 1], store) == kept + [ids[i]]
      && Resolved(ids[..i + 1], store) == Resolved(ids[..i], store) + [store[ids[i]]]
      && kept + ids[i..] == FoundIds(ids[..i + 1], store) + ids[i + 1..]
  {
    assert ids[..i + 1][..i] == ids[..i];
    assert ids[i..] == [ids[i]] + ids[i + 1..];
  }

  // ---------------------------------------------------------------------------
  // Rows

  /** The structural keys of a resource's row, in the order they are set. */
  function FixedRowKeys(r: Resource, typed: bool): seq<Column> {
    IdentityKeys(typed) + KindKeys(r)
  }

  /** The keys every row starts with. */
  function IdentityKeys(typed: bool): seq<Column> {
    if typed then [Id, Url, ResourceType, ResourceClass] else [Id, Url, ResourceClass]
  }

  /** The keys that depend on the kind of resource. */
  function KindKeys(r: Resource): seq<Column> {
    if r.kind == Items then ItemColumns
    else if r.kind == Media then MediaColumns
    else []
  }

  /** The class term of a resource, or the empty string when it has no class. */
  function ClassTerm(r: Resource): string {
    match r.resourceClass
    case Some(t) => t
    case None => ""
  }

  /** The structural cells of a resource's row, in the order they are set.
      typed says whether the header has the resource_type column. */
  function FixedCells(r: Resource, typed: bool, sep: string, sm: Stringifier): map<Column, Cell> {
    var cells := IdentityCells(r, typed);
    if r.kind == Items then ItemCells(r, cells, sep, sm)
    else if r.kind == Media then MediaCells(r, cells)
    else cells
  }

  /** The cells every row starts with. */
  function IdentityCells(r: Resource, typed: bool): map<Column, Cell> {
    var cells := map[Id := Int(r.id), Url := Str(r.url)];
    var cells := if typed then cells[ResourceType := Str(r.className)] else cells;
    cells[ResourceClass := Str(ClassTerm(r))]
  }

  /** The cells only an item has: the joined display strings of each column. */
  function ItemCells(r: Resource, cells: map<Column, Cell>, sep: string, sm: Stringifier): map<Column, Cell> {
    cells[ItemSetTitle := Str(Join(sep, sm(r, ItemSetTitle)))]
         [MediaId := Str(Join(sep, sm(r, MediaId)))]
         [MediaOriginalUrl := Str(Join(sep, sm(r, MediaOriginalUrl)))]
  }

  /** The cells only a media has: the url of its item and three accessors. */
  function MediaCells(r: Resource, cells: map<Column, Cell>): map<Column, Cell> {
    cells[ItemTitle := Str(r.itemUrl)][MediaType := r.mediaType][MediaSize := r.size][MediaOriginalUrl := r.originalUrl]
  }

  /** The structural cell a resource's row holds under key k, if any. */
  function FixedCell(r: Resource, k: Column, typed: bool, sep: string, sm: Stringifier): Option<Cell> {
    var cells := FixedCells(r, typed, sep, sm);
    if k in cells then Some(cells[k]) else None
  }

  /** A row has a structural cell exactly under its structural keys. */
  lemma FixedCellKeys(r: Resource, k: Column, typed: bool, sep: string, sm: Stringifier)
    ensures k in FixedCells(r, typed, sep, sm) <==> k in FixedRowKeys(r, typed)
  {
  }

  /** The cell a resource's row holds under key k, if any: a value term holds
      the separator-join of its display strings and overrides a structural key
      of the same name, since it is set last. */
  function RowCell(r: Resource, k: Column, typed: bool, sep: string, sm: Stringifier): Option<Cell> {
    if k in r.valueTerms then Some(Str(Join(sep, sm(r, k))))
    else FixedCell(r, k, typed, sep, sm)
  }

  /** The cell emitted under a header column for a resource. */
  function CellFor(r: Resource, k: Column, typed: bool, sep: string, sm: Stringifier): Cell {
    match RowCell(r, k, typed, sep, sm)
    case Some(c) => c
    case None => Null
  }

  /** The line emitted for a resource under the header columns h. */
  function ExpectedLine(h: seq<Column>, r: Resource, sep: string, sm: Stringifier): (line: seq<Cell>)
    ensures |line| == |h|
  {
    seq(|h|, j requires 0 <= j < |h| => CellFor(r, h[j], ResourceType in h, sep, sm))
  }

  /** The lines emitted for the resources rs, one per resource, in order. */
  function ExpectedLines(h: seq<Column>, rs: seq<Resource>, sep: string, sm: Stringifier): (lines: seq<seq<Cell>>)
    ensures |lines| == |rs|
    ensures forall i :: 0 <= i < |rs| ==> lines[i] == ExpectedLine(h, rs[i], sep, sm)
  {
    if rs == [] then []
    else ExpectedLines(h, rs[..|rs| - 1], sep, sm) + [ExpectedLine(h, rs[|rs| - 1], sep, sm)]
  }

  /** One more resource is one more line, after the lines of the others. */
  lemma LinesNext(h: seq<Column>, rs: seq<Resource>, r: Resource, sep: string, sm: Stringifier)
    ensures ExpectedLines(h, rs + [r], sep, sm) == ExpectedLines(h, rs, sep, sm) + [ExpectedLine(h, r, sep, sm)]
  {
    SnocPrefix(rs, r);
  }

  /** The header line itself. */
  function HeaderLine(h: seq<Column>): (line: seq<Cell>)
    ensures |line| == |h|
  {
    seq(|h|, j requires 0 <= j < |h| => Str(Name(h[j])))
  }

  /** The row once the value terms done have been set on top of base: each
      term holds the separator-join of its display strings. */
  function TermCells(base: Assoc<Column, Cell>, r: Resource, terms: seq<Column>, sep: string, sm: Stringifier): Assoc<Column, Cell> {
    if terms == [] then base
    else
      var t := terms[|terms| - 1];
      Put(TermCells(base, r, terms[..|terms| - 1], sep, sm), t, Str(Join(sep, sm(r, t))))
  }

  /** Setting the value terms appends the new ones, and a term's cell wins
      over whatever base held under that key. */
  lemma {:induction false} TermCellsSpec(base: Assoc<Column, Cell>, r: Resource, terms: seq<Column>, sep: string, sm: Stringifier)
    ensures TermCells(base, r, terms, sep, sm).keys == AddNew(base.keys, terms)
    ensures forall k | k in TermCells(base, r, terms, sep, sm).keys ::
      TermCells(base, r, terms, sep, sm).vals[k] == if k in terms then Str(Join(sep, sm(r, k))) else base.vals[k]
    decreases |terms|
  {
    if terms != [] {
      var t0 := terms[..|terms| - 1];
      TermCellsSpec(base, r, t0, sep, sm);
      assert forall k :: k in terms <==> k in t0 || k == terms[|terms| - 1];
    }
  }

  /** The row built from the structural cells and the value terms holds
      exactly the cells RowCell describes. */
  lemma RowSound(base: Assoc<Column, Cell>, r: Resource, typed: bool, sep: string, sm: Stringifier)
    requires base.keys == FixedRowKeys(r, typed) && base.vals == FixedCells(r, typed, sep, sm)
    ensures var row := TermCells(base, r, r.valueTerms, sep, sm);
      && row.keys == AddNew(FixedRowKeys(r, typed), r.valueTerms)
      && (forall k :: k in row.keys <==> RowCell(r, k, typed, sep, sm).Some?)
      && (forall k | k in row.keys :: row.vals[k] == RowCell(r, k, typed, sep, sm).value)
  {
    TermCellsSpec(base, r, r.valueTerms, sep, sm);
    forall k {
      FixedCellKeys(r, k, typed, sep, sm);
    }
  }

  /** The row re-aligned on the header: the header's placeholders replaced by
      the row's cells under the header's keys, then the values only. It has one
      cell per header column, in
      header order: the row's value when the row has that key, the header's
      placeholder otherwise; keys the header lacks are dropped. */
  function Align(header: Assoc<Column, Cell>, row: Assoc<Column, Cell>): (line: seq<Cell>)
    ensures |line| == |header.keys|
    ensures forall j :: 0 <= j < |line| ==>
      line[j] == if header.keys[j] in row.keys then row.vals[header.keys[j]] else header.vals[header.keys[j]]
  {
    var common := IntersectKey(row, header);
    OutsideAll(common.keys, header.keys);
    var merged := Replace(header, common);
    assert merged.keys == header.keys;
    Values(merged)
  }

  /** The flags while the kind-specific columns are being switched on, after
      the resource names done. */
  ghost predicate Switched(props: Terms, flags: Assoc<Column, bool>, seen: seq<Resource>, done: seq<Kind>) {
    && flags.keys == Candidates(props, seen)
    && forall k | k in flags.keys ::
         flags.vals[k] == (|| k in AlwaysColumns || HasValues(seen, k)
                           || (k == ResourceType && |Kinds(seen)| > 1)
                           || KindOn(done, k))
  }

  /** The columns a resource name switches on. */
  function KindColumns(kind: Kind): (cols: seq<Column>)
    ensures Distinct(cols)
  {
    DistinctFixed();
    if kind == Items then ItemColumns else if kind == Media then MediaColumns else []
  }

  /** The flags after the kind loop has met the resource names done: items
      and media switch their columns on, any other name changes nothing. */
  function SwitchKinds(flags: Assoc<Column, bool>, done: seq<Kind>): Assoc<Column, bool> {
    if done == [] then flags
    else
      var f, kind := SwitchKinds(flags, done[..|done| - 1]), done[|done| - 1];
      if kind == Items || kind == Media then Replace(f, FillList(KindColumns(kind), true))
      else f
  }

  /** The columns switched on after the names done: those switched on
      before the last name, and the columns of the last name. */
  lemma KindOnLast(done: seq<Kind>)
    requires done != []
    ensures forall k :: KindOn(done, k) <==> KindOn(done[..|done| - 1], k) || k in KindColumns(done[|done| - 1])
  {
    var d0, kind := done[..|done| - 1], done[|done| - 1];
    assert done == d0 + [kind];
    assert Items in done <==> Items in d0 || kind == Items;
    assert Media in done <==> Media in d0 || kind == Media;
  }

  /** The last resource name of the kind loop switches its columns on. */
  lemma SwitchLast(props: Terms, flags: Assoc<Column, bool>, seen: seq<Resource>, done: seq<Kind>)
    requires done != [] && Switched(props, flags, seen, done[..|done| - 1])
    ensures Switched(props, Replace(flags, FillList(KindColumns(done[|done| - 1]), true)), seen, done)
  {
    var on := FillList(KindColumns(done[|done| - 1]), true);
    assert forall k | k in on.keys :: k in flags.keys by {
      DistinctFixed();
      assert forall k | k in KindColumns(done[|done| - 1]) :: k in FixedColumns;
    }
    OutsideAll(on.keys, flags.keys);
    KindOnLast(done);
  }

  /** A resource name other than items and media switches nothing on. */
  lemma SwitchOther(props: Terms, flags: Assoc<Column, bool>, seen: seq<Resource>, done: seq<Kind>)
    requires done != [] && Switched(props, flags, seen, done[..|done| - 1])
    requires done[|done| - 1] != Items && done[|done| - 1] != Media
    ensures Switched(props, flags, seen, done)
  {
    KindOnLast(done);
  }

  /** The kind loop computes what Switched describes. */
  lemma {:induction false} SwitchSound(props: Terms, flags: Assoc<Column, bool>, seen: seq<Resource>, done: seq<Kind>)
    requires Switched(props, flags, seen, [])
    ensures Switched(props, SwitchKinds(flags, done), seen, done)
    decreases |done|
  {
    if done != [] {
      var d0, kind := done[..|done| - 1], done[|done| - 1];
      SwitchSound(props, flags, seen, d0);
      if kind == Items || kind == Media {
        SwitchLast(props, SwitchKinds(flags, d0), seen, done);
      } else {
        SwitchOther(props, SwitchKinds(flags, d0), seen, done);
      }
    }
  }

  /** The names of the resources met are the keys of the filtered name flags. */
  lemma SwitchNames(kinds: Assoc<Kind, bool>, seen: seq<Resource>)
    requires kinds.keys == Kinds(seen)
    requires forall k | k in kinds.keys :: kinds.vals[k]
    ensures KeepTrue(kinds).keys == Kinds(seen)
  {
    AmongAll(kinds.keys, TrueKeys(kinds));
  }

  /** The flags the kind loop starts from: resource_type is switched on when
      more than one kind was met. */
  lemma SwitchStart(props: Terms, flags: Assoc<Column, bool>, seen: seq<Resource>)
    requires flags.keys == Candidates(props, seen)
    requires forall k | k in flags.keys :: flags.vals[k] == (k in AlwaysColumns || HasValues(seen, k))
    ensures |Kinds(seen)| > 1 ==> Switched(props, Put(flags, ResourceType, true), seen, [])
    ensures |Kinds(seen)| <= 1 ==> Switched(props, flags, seen, [])
  {
    DistinctFixed();
    assert ResourceType in flags.keys;
  }

  /** Once every name met has switched its columns on, the keys switched on
      are the header. */
  lemma SwitchEnd(props: Terms, flags: Assoc<Column, bool>, seen: seq<Resource>)
    requires Switched(props, flags, seen, Kinds(seen))
    ensures KeepTrue(flags).keys == HeaderColumns(props, seen)
  {
    assert forall n :: n in Kinds(seen) <==> n in Names(seen);
    AmongAgree(Candidates(props, seen), TrueKeys(flags), UsedColumns(props, seen));
  }

  /** The end of the first pass: the resource_type column when more than one
      kind of resource was met, the kind-specific columns of each kind met,
      then the keys of the columns switched on, each mapped to null. */
  method SelectColumns(props: Terms, flags0: Assoc<Column, bool>, kinds: Assoc<Kind, bool>, ghost seen: seq<Resource>)
      returns (headers: Assoc<Column, Cell>)
    requires Scanned(props, flags0, kinds, seen)
    ensures headers.keys == HeaderColumns(props, seen)
    ensures forall k | k in headers.keys :: headers.vals[k] == Null
  {
    SwitchNames(kinds, seen);
    SwitchStart(props, flags0, seen);
    var flags := flags0;
    var types := KeepTrue(kinds);
    if |types.keys| > 1 {
      flags := Put(flags, ResourceType, true);
    }
    ghost var start := flags;
    flags := SwitchAll(flags, types.keys);
    SwitchSound(props, start, seen, types.keys);
    SwitchEnd(props, flags, seen);
    // Only the columns switched on are kept.
    headers := FillKeys(KeepTrue(flags), Null);
  }

  /** The kind loop: for each resource name met, in order, items and media
      switch their columns on. */
  method SwitchAll(flags0: Assoc<Column, bool>, names: seq<Kind>) returns (flags: Assoc<Column, bool>)
    ensures flags == SwitchKinds(flags0, names)
  {
    flags := flags0;
    DistinctFixed();
    for j := 0 to |names|
      invariant flags == SwitchKinds(flags0, names[..j])
    {
      var kind := names[j];
      PrefixNext(names, j);
      if kind == Items {
        flags := Replace(flags, FillList(ItemColumns, true));
      } else if kind == Media {
        flags := Replace(flags, FillList(MediaColumns, true));
      }
    }
    PrefixAll(names);
  }

  // ---------------------------------------------------------------------------
  // The formatter

  class CsvFormatter {
    /** Whether the resources are given as ids (read one by one) or as representations. */
    const isId: bool
    const resources: seq<Resource>
    var resourceIds: seq<int>
    /** The keys of getPropertiesByTerm(): every property term of the installation. */
    const propertyTerms: Terms
    const separator: string
    const stringMetadata: Stringifier
    /** Set when the output could not be opened. */
    const hasError: bool
    /** The lines written so far, one sequence of cells per CSV line. */
    ghost var output: seq<seq<Cell>>

    constructor (isId: bool, resources: seq<Resource>, resourceIds: seq<int>, propertyTerms: Terms,
                 separator: string, stringMetadata: Stringifier, hasError: bool)
      ensures this.isId == isId && this.resources == resources && this.resourceIds == resourceIds
      ensures this.propertyTerms == propertyTerms && this.separator == separator
      ensures this.stringMetadata == stringMetadata && this.hasError == hasError
      ensures output == []
    {
      this.isId := isId;
      this.resources := resources;
      this.resourceIds := resourceIds;
      this.propertyTerms := propertyTerms;
      this.separator := separator;
      this.stringMetadata := stringMetadata;
      this.hasError := hasError;
      output := [];
    }

    /** The resources the first pass scans, given the ids it starts from and
        the store it reads them from. */
    function ScannedResources(ids: seq<int>, store: map<int, Resource>): seq<Resource> {
      if isId then Resolved(ids, store) else resources
    }

    /** The first pass. In id mode, ids the store does not resolve are
        removed from resourceIds and contribute nothing. The header keys are
        HeaderColumns of the resources scanned, each mapped to null. */
    method PrepareHeaders(store: map<int, Resource>) returns (headers: Assoc<Column, Cell>)
      modifies this`resourceIds
      ensures resourceIds == if isId then FoundIds(old(resourceIds), store) else old(resourceIds)
      ensures headers.keys == HeaderColumns(propertyTerms, ScannedResources(old(resourceIds), store))
      ensures forall k | k in headers.keys :: headers.vals[k] == Null
    {
      var flags, kinds;
      ghost var seen;
      if isId {
        flags, kinds, seen := ScanIds(store);
      } else {
        flags, kinds, seen := ScanResources();
      }
      ScanFlagsSound(propertyTerms, seen);
      ScanKindsSound(seen);
      headers := SelectColumns(propertyTerms, flags, kinds, seen);
    }

    /** The first loop in id mode: each id is read from the store; an id the
        store does not resolve is unset from resourceIds. */
    method ScanIds(store: map<int, Resource>)
        returns (flags: Assoc<Column, bool>, kinds: Assoc<Kind, bool>, ghost seen: seq<Resource>)
      requires isId
      modifies this`resourceIds
      ensures resourceIds == FoundIds(old(resourceIds), store)
      ensures seen == Resolved(old(resourceIds), store)
      ensures flags == ScanFlags(propertyTerms, seen) && kinds == ScanKinds(seen)
    {
      flags, kinds := ScanStart(propertyTerms);
      seen := [];
      var ids := resourceIds;
      var i, kept := 0, 0;
      while i < |ids|
        invariant 0 <= i <= |ids|
        invariant seen == Resolved(ids[..i], store)
        invariant resourceIds == FoundIds(ids[..i], store) + ids[i..]
        invariant kept == |resourceIds| - (|ids| - i)
        invariant flags == ScanFlags(propertyTerms, seen) && kinds == ScanKinds(seen)
      {
        if ids[i] !in store {
          // Not found: forget the id.
          UnsetNext(ids, i, store);
          resourceIds := resourceIds[..kept] + resourceIds[kept + 1..];
        } else {
          KeepNext(ids, i, store);
          var r := store[ids[i]];
          flags, kinds := ScanResource(propertyTerms, flags, kinds, seen, r);
          seen := seen + [r];
          kept := kept + 1;
        }
        i := i + 1;
      }
      PrefixAll(ids);
    }

    /** The first loop over resources given as representations. */
    method ScanResources()
        returns (flags: Assoc<Column, bool>, kinds: Assoc<Kind, bool>, ghost seen: seq<Resource>)
      ensures seen == resources
      ensures flags == ScanFlags(propertyTerms, seen) && kinds == ScanKinds(seen)
    {
      flags, kinds := ScanStart(propertyTerms);
      for i := 0 to |resources|
        invariant flags == ScanFlags(propertyTerms, resources[..i]) && kinds == ScanKinds(resources[..i])
      {
        PrefixNext(resources, i);
        flags, kinds := ScanResource(propertyTerms, flags, kinds, resources[..i], resources[i]);
      }
      PrefixAll(resources);
      seen := resources;
    }

    /** The row of one resource, built key by key: the structural keys first,
        then one key per value term holding the joined display strings. */
    method PrepareRow(r: Resource, headers: Assoc<Column, Cell>) returns (row: Assoc<Column, Cell>)
      ensures row.keys == AddNew(FixedRowKeys(r, ResourceType in headers.keys), r.valueTerms)
      ensures forall k :: k in row.keys <==> RowCell(r, k, ResourceType in headers.keys, separator, stringMetadata).Some?
      ensures forall k | k in row.keys ::
        row.vals[k] == RowCell(r, k, ResourceType in headers.keys, separator, stringMetadata).value
    {
      var typed := ResourceType in headers.keys;
      row := PutStructural(r, typed);
      ghost var base := row;
      var terms := r.valueTerms;
      for i := 0 to |terms|
        invariant row == TermCells(base, r, terms[..i], separator, stringMetadata)
      {
        PrefixNext(terms, i);
        row := Put(row, terms[i], Str(Join(separator, stringMetadata(r, terms[i]))));
      }
      PrefixAll(terms);
      RowSound(base, r, typed, separator, stringMetadata);
    }

    /** The structural keys of a row, set one by one. */
    method PutStructural(r: Resource, typed: bool) returns (row: Assoc<Column, Cell>)
      ensures row.keys == FixedRowKeys(r, typed)
      ensures row.vals == FixedCells(r, typed, separator, stringMetadata)
    {
      row := PutIdentity(r, typed);
      if r.kind == Items {
        row := PutItemCells(r, row);
      } else if r.kind == Media {
        row := PutMediaCells(r, row);
      }
    }

    /** The keys every row starts with: the id, the url, the class name of
        the representation when the header has resource_type, the class term. */
    method PutIdentity(r: Resource, typed: bool) returns (row: Assoc<Column, Cell>)
      ensures row.keys == IdentityKeys(typed)
      ensures row.vals == IdentityCells(r, typed)
    {
      row := Empty();
      row := Put(row, Id, Int(r.id));
      row := Put(row, Url, Str(r.url));
      if typed {
        row := Put(row, ResourceType, Str(r.className));
      }
      row := Put(row, ResourceClass, Str(ClassTerm(r)));
    }

    /** The cells only an item has. */
    method PutItemCells(r: Resource, base: Assoc<Column, Cell>) returns (row: Assoc<Column, Cell>)
      requires ItemSetTitle !in base.keys && MediaId !in base.keys && MediaOriginalUrl !in base.keys
      ensures row.keys == base.keys + ItemColumns
      ensures row.vals == ItemCells(r, base.vals, separator, stringMetadata)
    {
      row := Put(base, ItemSetTitle, Str(Join(separator, stringMetadata(r, ItemSetTitle))));
      row := Put(row, MediaId, Str(Join(separator, stringMetadata(r, MediaId))));
      row := Put(row, MediaOriginalUrl, Str(Join(separator, stringMetadata(r, MediaOriginalUrl))));
    }

    /** The cells only a media has. */
    method PutMediaCells(r: Resource, base: Assoc<Column, Cell>) returns (row: Assoc<Column, Cell>)
      requires ItemTitle !in base.keys && MediaType !in base.keys
      requires MediaSize !in base.keys && MediaOriginalUrl !in base.keys
      ensures row.keys == base.keys + MediaColumns
      ensures row.vals == MediaCells(r, base.vals)
    {
      row := Put(base, ItemTitle, Str(r.itemUrl));
      row := Put(row, MediaType, r.mediaType);
      row := Put(row, MediaSize, r.size);
      row := Put(row, MediaOriginalUrl, r.originalUrl);
    }

    /** The whole export: nothing when the output could not be opened;
        otherwise the header line, then one line per resource aligned on the
        header. In id mode the second pass reads the ids kept by the first
        pass from a store that may have changed since, and skips those it no
        longer finds. */
    method Process(first: map<int, Resource>, second: map<int, Resource>)
      modifies this`resourceIds, this`output
      ensures hasError ==> output == old(output) && resourceIds == old(resourceIds)
      ensures !hasError ==>
        resourceIds == if isId then FoundIds(old(resourceIds), first) else old(resourceIds)
      ensures !hasError ==>
        var h := HeaderColumns(propertyTerms, ScannedResources(old(resourceIds), first));
        var emitted := if isId then Resolved(FoundIds(old(resourceIds), first), second) else resources;
        output == old(output) + [HeaderLine(h)] + ExpectedLines(h, emitted, separator, stringMetadata)
    {
      if hasError {
        return;
      }
      var headers := PrepareHeaders(first);
      output := output + [HeaderLine(headers.keys)];
      if isId {
        EmitIds(headers, second);
      } else {
        EmitResources(headers);
      }
    }

    /** The second loop in id mode: each id kept by the first pass is read
        again; an id the store no longer resolves is skipped. */
    method EmitIds(headers: Assoc<Column, Cell>, store: map<int, Resource>)
      requires forall k | k in headers.keys :: headers.vals[k] == Null
      modifies this`output
      ensures output == old(output) + ExpectedLines(headers.keys, Resolved(resourceIds, store), separator, stringMetadata)
    {
      ghost var start := output;
      ghost var done: seq<Resource> := [];
      var ids := resourceIds;
      for i := 0 to |ids|
        invariant done == Resolved(ids[..i], store)
        invariant output == start + ExpectedLines(headers.keys, done, separator, stringMetadata)
      {
        ResolvedNext(ids, i, store);
        if ids[i] in store {
          var r := store[ids[i]];
          var line := OutputRow(r, headers);
          LinesNext(headers.keys, done, r, separator, stringMetadata);
          output := output + [line];
          done := done + [r];
        }
      }
      PrefixAll(ids);
    }

    /** The second loop over resources given as representations. */
    method EmitResources(headers: Assoc<Column, Cell>)
      requires forall k | k in headers.keys :: headers.vals[k] == Null
      modifies this`output
      ensures output == old(output) + ExpectedLines(headers.keys, resources, separator, stringMetadata)
    {
      ghost var start := output;
      for i := 0 to |resources|
        invariant output == start + ExpectedLines(headers.keys, resources[..i], separator, stringMetadata)
      {
        var line := OutputRow(resources[i], headers);
        PrefixNext(resources, i);
        output := output + [line];
      }
      PrefixAll(resources);
    }

    /** One line of the second pass: the resource's row aligned on the header. */
    method OutputRow(r: Resource, headers: Assoc<Column, Cell>) returns (line: seq<Cell>)
      requires forall k | k in headers.keys :: headers.vals[k] == Null
      ensures line == ExpectedLine(headers.keys, r, separator, stringMetadata)
    {
      var row := PrepareRow(r, headers);
      line := Align(headers, row);
    }
  }
}
