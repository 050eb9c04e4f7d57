/** The export driver shared by the writers that output one row of fields
    per resource: option normalisation, the count queries, the per-type page
    loop with its counters, and the map of fields built for each resource. */
module FieldsWriter {
  import opened OrderedMap
  import Resources

  type Resource = Resources.Resource

  /** `SQL_LIMIT`: the size of every page the loop asks for. */
  const SqlLimit := 100

  // ---------------------------------------------------------------------------
  // Options and queries

  /** A key of the options array. The keys the writer reads have their own
      constructor; any other key a caller passes is kept by its name. */
  datatype OptionKey =
    | Dirpath | Filebase | ResourceTypeOption | ResourceTypesOption
    | MetadataOption | MetadataExcludeOption | FormatFields | FormatGeneric
    | FormatResource | FormatResourceProperty | FormatUri | Language
    | OnlyFirst | EmptyFields | QueryOption
    | OtherOption(name: OtherOptionName)

  /** The name of an option the writer does not read: never the spelling of
      one it reads, so each key has exactly one form. */
  type OtherOptionName = s: string | s !in {
    "dirpath", "filebase", "resource_type", "resource_types", "metadata",
    "metadata_exclude", "format_fields", "format_generic", "format_resource",
    "format_resource_property", "format_uri", "language", "only_first",
    "empty_fields", "query"} witness ""

  /** A key of an API query: the paging keys, the integer keys of a plain
      list, and every other argument by its name. */
  datatype QueryKey = Limit | Offset | Page | PerPage | Position(n: nat) | Arg(name: ArgName)

  /** Whether PHP reads a string key as an integer key: a decimal integer
      without a plus sign or leading zeros. */
  predicate IntegerSpelling(s: string) {
    var digits := if |s| > 1 && s[0] == '-' then s[1..] else s;
    && digits != []
    && (forall i | 0 <= i < |digits| :: '0' <= digits[i] <= '9')
    && (digits[0] == '0' ==> s == "0")
  }

  /** The name of any other query argument: neither a paging key nor a key
      PHP stores as an integer, so each key has exactly one form. */
  type ArgName = s: string | s !in {"limit", "offset", "page", "per_page"} && !IntegerSpelling(s) witness ""

  datatype QueryArg = Num(n: int) | Word(s: string) | Words(l: seq<string>)

  type Query = Assoc<QueryKey, QueryArg>

  /** An option value: PHP's null, a boolean, a string, a list of strings,
      or an associative array (a query). */
  datatype OptionValue = Null | Flag(b: bool) | Text(s: string) | Texts(l: seq<string>) | QueryValue(q: Query)

  type Options = Assoc<OptionKey, OptionValue>

  const DefaultKeys: seq<OptionKey> := [
    Dirpath, Filebase, ResourceTypeOption, ResourceTypesOption, MetadataOption,
    MetadataExcludeOption, FormatFields, FormatGeneric, FormatResource,
    FormatResourceProperty, FormatUri, Language, OnlyFirst, EmptyFields, QueryOption]

  /** The options a writer starts with, in their declared order. */
  function Defaults(): (r: Options)
    ensures r.keys == DefaultKeys
    ensures r.vals[EmptyFields] == Flag(false) && r.vals[FormatResource] == Text("url_title")
    ensures r.vals[ResourceTypesOption] == Texts([]) && r.vals[QueryOption] == QueryValue(Empty())
  {
    DefaultKeysDistinct();
    var vals := map[
      Dirpath := Null, Filebase := Null, ResourceTypeOption := Null,
      ResourceTypesOption := Texts([]), MetadataOption := Texts([]), MetadataExcludeOption := Texts([]),
      FormatFields := Text("name"), FormatGeneric := Text("raw"), FormatResource := Text("url_title"),
      FormatResourceProperty := Text("dcterms:identifier"), FormatUri := Text("uri_label"),
      Language := Text(""), OnlyFirst := Flag(false), EmptyFields := Flag(false),
      QueryOption := QueryValue(Empty())];
    assert forall i | 0 <= i < |DefaultKeys| :: DefaultKeys[i] in vals;
    Entries(DefaultKeys, vals)
  }

  /** The position of a named key in DefaultKeys. */
  function Rank(k: OptionKey): nat {
    match k
    case Dirpath => 0 case Filebase => 1 case ResourceTypeOption => 2
    case ResourceTypesOption => 3 case MetadataOption => 4 case MetadataExcludeOption => 5
    case FormatFields => 6 case FormatGeneric => 7 case FormatResource => 8
    case FormatResourceProperty => 9 case FormatUri => 10 case Language => 11
    case OnlyFirst => 12 case EmptyFields => 13 case QueryOption => 14
    case OtherOption(_) => 15
  }

  lemma DefaultKeysDistinct()
    ensures Distinct(DefaultKeys)
  {
    assert forall i | 0 <= i < |DefaultKeys| :: Rank(DefaultKeys[i]) == i;
  }

  /** PHP's conversion of a value to a boolean. */
  predicate Truthy(v: OptionValue) {
    match v
    case Null => false
    case Flag(b) => b
    case Text(s) => s != "" && s != "0"
    case Texts(l) => l != []
    case QueryValue(q) => q.keys != []
  }

  /** Whether the resource format is one of the two identifier formats,
      under PHP's loose comparison, where `true` equals every non-empty
      string. */
  predicate NamesIdentifier(v: OptionValue) {
    v == Text("identifier") || v == Text("identifier_id") || v == Flag(true)
  }

  /** PHP's string conversion, for the values that are not arrays. */
  function StringOf(v: OptionValue): string
    requires !v.Texts? && !v.QueryValue?
  {
    match v
    case Null => ""
    case Flag(b) => if b then "1" else ""
    case Text(s) => s
  }

  predicate IsArray(v: OptionValue) {
    v.Texts? || v.QueryValue?
  }

  /** What `initializeParams` makes of the options: the caller's parameters
      win over the current options (PHP's `+`), the resource property format
      is dropped unless resources are formatted by identifier, and a query
      given as a string is parsed into an array. */
  function Normalized(params: Options, options: Options, parse: string -> Query): Options {
    var merged := Union(params, options);
    var formatted :=
      if NamesIdentifier(Lookup(merged, FormatResource, Null)) then merged
      else Put(merged, FormatResourceProperty, Null);
    var query := Lookup(formatted, QueryOption, Null);
    if IsArray(query) then formatted
    else Put(formatted, QueryOption, QueryValue(parse(StringOf(query))))
  }

  /** A parameter the caller sets, other than the two entries normalised
      afterwards, is the option's value; any other option keeps its value. */
  lemma NormalizedOverrides(params: Options, options: Options, parse: string -> Query, k: OptionKey)
    requires k != FormatResourceProperty && k != QueryOption
    ensures var r := Normalized(params, options, parse);
      && (k in r.keys <==> k in params.keys || k in options.keys)
      && (k in params.keys ==> r.vals[k] == params.vals[k])
      && (k !in params.keys && k in options.keys ==> r.vals[k] == options.vals[k])
  {
  }

  /** The resource property format survives only when resources are
      formatted by identifier; otherwise it is null. */
  lemma NormalizedPropertyFormat(params: Options, options: Options, parse: string -> Query)
    ensures var r := Normalized(params, options, parse);
      var format := Lookup(Union(params, options), FormatResource, Null);
      && Lookup(r, FormatResource, Null) == format
      && (!NamesIdentifier(format) ==> FormatResourceProperty in r.keys && r.vals[FormatResourceProperty] == Null)
      && (NamesIdentifier(format) ==>
            Lookup(r, FormatResourceProperty, Null) == Lookup(Union(params, options), FormatResourceProperty, Null))
  {
  }

  /** After normalisation the query is always an array: one given as an
      array is kept, anything else is parsed from its string form. */
  lemma NormalizedQuery(params: Options, options: Options, parse: string -> Query)
    ensures var r := Normalized(params, options, parse);
      var given := Lookup(Union(params, options), QueryOption, Null);
      && QueryOption in r.keys && IsArray(r.vals[QueryOption])
      && (IsArray(given) ==> r.vals[QueryOption] == given)
      && (!IsArray(given) ==> r.vals[QueryOption] == QueryValue(parse(StringOf(given))))
  {
  }

  /** A plain PHP list as an array: its values under the keys 0, 1, … */
  function Listed(l: seq<string>): (r: Query)
    ensures forall k :: k in r.keys <==> k.Position? && k.n < |l|
    ensures forall i | 0 <= i < |l| :: r.vals[Position(i)] == Word(l[i])
    decreases |l|
  {
    if l == [] then Empty()
    else Put(Listed(l[..|l| - 1]), Position(|l| - 1), Word(l[|l| - 1]))
  }

  /** The query option read as an array. Normalisation leaves an array
      there; any other value reads as the empty query. */
  function QueryOf(options: Options): Query {
    match Lookup(options, QueryOption, Null)
    case QueryValue(q) => q
    case Texts(l) => Listed(l)
    case _ => Empty()
  }

  /** The resource types option: a value that is not a list names no type. */
  function ResourceTypesOf(options: Options): seq<string> {
    match Lookup(options, ResourceTypesOption, Null)
    case Texts(l) => l
    case _ => []
  }

  /** The query of a count search: a limit of 0 put in front of the
      caller's query, so the limit is 0 whatever the caller asked for, and
      every other argument is the caller's. */
  function CountQuery(q: Query): Query {
    var forced: Query := Entries([Limit], map[Limit := Num(0)]);
    Union(forced, q)
  }

  lemma CountQuerySpec(q: Query)
    ensures var r := CountQuery(q);
      && |r.keys| > 0 && r.keys[0] == Limit && Limit in r.keys && r.vals[Limit] == Num(0)
      && (forall k :: k in r.keys <==> k == Limit || k in q.keys)
      && (forall k | k in q.keys && k != Limit :: r.vals[k] == q.vals[k])
  {
  }

  /** The query of one page: the page size and the offset put in front of
      the caller's query. Limit and offset are the loop's whatever the caller
      asked for. */
  function PageQuery(offset: int, q: Query): Query {
    var paging: Query := Entries([Limit, Offset], map[Limit := Num(SqlLimit), Offset := Num(offset)]);
    Union(paging, q)
  }

  lemma PageQuerySpec(offset: int, q: Query)
    ensures var r := PageQuery(offset, q);
      && |r.keys| >= 2 && r.keys[..2] == [Limit, Offset]
      && Limit in r.keys && r.vals[Limit] == Num(SqlLimit)
      && Offset in r.keys && r.vals[Offset] == Num(offset)
      && (forall k :: k in r.keys <==> k == Limit || k == Offset || k in q.keys)
      && (forall k | k in q.keys && k != Limit && k != Offset :: r.vals[k] == q.vals[k])
  {
  }

  /** The query with `page` and `per_page` unset: paging is the loop's own. */
  function Unpaged(q: Query): Query {
    Remove(Remove(q, Page), PerPage)
  }

  lemma UnpagedSpec(q: Query)
    ensures var r := Unpaged(q);
      && (forall k :: k in r.keys <==> k in q.keys && k != Page && k != PerPage)
      && (forall k | k in r.keys :: r.vals[k] == q.vals[k])
  {
  }

  /** Unsetting the paging keys a second time changes nothing. */
  lemma UnpagedTwice(q: Query)
    ensures Unpaged(Unpaged(q)) == Unpaged(q)
  {
    var r := Unpaged(q);
    OutsideNone(r.keys, [Page]);
    OutsideNone(Remove(r, Page).keys, [PerPage]);
  }

  /** A search the writer sends to the API: the API resource name and the query. */
  datatype Request = Request(resource: string, query: Entries<QueryKey, QueryArg>)

  // ---------------------------------------------------------------------------
  // The fields of one resource

  /** What `getDataResource` reads besides the resource: the field names,
      `stringMetadata`, and whether empty fields are dropped
      (unless the empty_fields option is set). */
  datatype Extraction = Extraction(
    fieldNames: seq<string>,
    metadata: (Resource, string) -> seq<string>,
    removeEmpty: bool)

  function ExtractionOf(options: Options, fieldNames: seq<string>,
                        metadata: (Resource, string) -> seq<string>): Extraction {
    Extraction(fieldNames, metadata, !Truthy(Lookup(options, EmptyFields, Null)))
  }

  /** The fields of a resource: field name to its list of strings. */
  type Row = Assoc<string, seq<string>>

  /** A map as it is handed to `writeFields` and logged. */
  type Fields = Entries<string, seq<string>>

  /** The values with the empty strings filtered out, in order. */
  function NonEmpty(values: seq<string>): (r: seq<string>)
    ensures forall s :: s in r <==> s in values && s != ""
    decreases |values|
  {
    if values == [] then []
    else
      var r0 := NonEmpty(values[..|values| - 1]);
      assert forall s :: s in values[..|values| - 1] ==> s in values;
      if values[|values| - 1] != "" then r0 + [values[|values| - 1]] else r0
  }

  /** The strings one occurrence of a field contributes. */
  function Kept(x: Extraction, r: Resource, f: string): seq<string> {
    if x.removeEmpty then NonEmpty(x.metadata(r, f)) else x.metadata(r, f)
  }

  /** The map `getDataResource` builds from the first `|fields|` field names. */
  function DataOf(x: Extraction, r: Resource, fields: seq<string>): Row
    decreases |fields|
  {
    if fields == [] then Empty()
    else
      var d := DataOf(x, r, fields[..|fields| - 1]);
      var f := fields[|fields| - 1];
      var values := Kept(x, r, f);
      if x.removeEmpty && values == [] then d
      else if f in d.keys then Put(d, f, d.vals[f] + values)
      else Put(d, f, values)
  }

  function DataResource(x: Extraction, r: Resource): Row {
    DataOf(x, r, x.fieldNames)
  }

  /** The field names that contribute to the map, in their order. */
  function Contributing(x: Extraction, r: Resource, fields: seq<string>): (s: seq<string>)
    ensures forall f :: f in s <==> f in fields && (!x.removeEmpty || Kept(x, r, f) != [])
    decreases |fields|
  {
    if fields == [] then []
    else
      var s0 := Contributing(x, r, fields[..|fields| - 1]);
      var f := fields[|fields| - 1];
      assert forall g :: g in fields[..|fields| - 1] ==> g in fields;
      if x.removeEmpty && Kept(x, r, f) == [] then s0 else s0 + [f]
  }

  /** How many times `f` occurs in `fields`. */
  function Count(fields: seq<string>, f: string): (n: nat)
    ensures n == 0 <==> f !in fields
    decreases |fields|
  {
    if fields == [] then 0
    else
      assert forall g :: g in fields <==> g in fields[..|fields| - 1] || g == fields[|fields| - 1];
      Count(fields[..|fields| - 1], f) + (if fields[|fields| - 1] == f then 1 else 0)
  }

  /** `n` copies of `s`, one after the other. */
  function Repeat(s: seq<string>, n: nat): (r: seq<string>)
    ensures s == [] ==> r == []
    ensures n > 0 ==> |s| <= |r|
  {
    if n == 0 then [] else Repeat(s, n - 1) + s
  }

  lemma {:induction false} RepeatLength(s: seq<string>, n: nat)
    ensures |Repeat(s, n)| == n * |s|
  {
    if n > 0 {
      RepeatLength(s, n - 1);
    }
  }

  /** The keys of the map are the contributing field names, each once, in
      the order of their first occurrence. */
  lemma {:induction false} DataOfKeys(x: Extraction, r: Resource, fields: seq<string>)
    ensures DataOf(x, r, fields).keys == AddNew([], Contributing(x, r, fields))
    decreases |fields|
  {
    if fields != [] {
      var prefix := fields[..|fields| - 1];
      var f := fields[|fields| - 1];
      DataOfKeys(x, r, prefix);
      if !(x.removeEmpty && Kept(x, r, f) == []) {
        var c := Contributing(x, r, prefix);
        assert Contributing(x, r, fields) == c + [f];
        AddNewConcat([], c, [f]);
        AddNewOne(AddNew([], c), f);
      }
    }
  }

  lemma AddNewOne(a: seq<string>, f: string)
    ensures AddNew(a, [f]) == if f in a then a else a + [f]
  {
    assert [f][..0] == [];
  }

  /** Each key holds the strings of its field once per occurrence of the
      name, in order: a repeated field name concatenates. */
  lemma {:induction false} DataOfValue(x: Extraction, r: Resource, fields: seq<string>, k: string)
    requires k in DataOf(x, r, fields).keys
    ensures DataOf(x, r, fields).vals[k] == Repeat(Kept(x, r, k), Count(fields, k))
    decreases |fields|
  {
    var prefix := fields[..|fields| - 1];
    var f := fields[|fields| - 1];
    DataOfLast(x, r, fields, k);
    assert Count(fields, k) == Count(prefix, k) + (if f == k then 1 else 0);
    if k in DataOf(x, r, prefix).keys {
      DataOfValue(x, r, prefix, k);
    } else {
      DataOfKeys(x, r, prefix);
      assert Count(prefix, k) == 0;
      assert [] + Kept(x, r, k) == Kept(x, r, k);
    }
  }

  /** What the last field name does to the value of key `k`. */
  lemma DataOfLast(x: Extraction, r: Resource, fields: seq<string>, k: string)
    requires k in DataOf(x, r, fields).keys
    ensures fields != []
    ensures var prefix := fields[..|fields| - 1];
      var f := fields[|fields| - 1];
      var d0 := DataOf(x, r, prefix);
      && (k != f ==> k in d0.keys && DataOf(x, r, fields).vals[k] == d0.vals[k])
      && (k == f ==> DataOf(x, r, fields).vals[k] == Lookup(d0, k, []) + Kept(x, r, k))
  {
    var prefix := fields[..|fields| - 1];
    var f := fields[|fields| - 1];
    var d0 := DataOf(x, r, prefix);
    var values := Kept(x, r, f);
    if x.removeEmpty && values == [] {
      assert DataOf(x, r, fields) == d0;
    }
  }

  /** With empty fields dropped, no key holds an empty list or an empty string. */
  lemma DataResourceNoEmpty(x: Extraction, r: Resource)
    requires x.removeEmpty
    ensures var d := DataResource(x, r);
      forall k | k in d.keys :: d.vals[k] != [] && "" !in d.vals[k]
  {
    DataOfKeys(x, r, x.fieldNames);
    var d := DataResource(x, r);
    forall k | k in d.keys
      ensures d.vals[k] != [] && "" !in d.vals[k]
    {
      assert k in Contributing(x, r, x.fieldNames);
      DataOfValue(x, r, x.fieldNames, k);
      RepeatHas(Kept(x, r, k), Count(x.fieldNames, k));
    }
  }

  lemma {:induction false} RepeatHas(s: seq<string>, n: nat)
    ensures forall t :: t in Repeat(s, n) ==> t in s
  {
    if n > 0 {
      RepeatHas(s, n - 1);
    }
  }

  /** The emptiness check of the page loop: some field has a non-empty list. */
  predicate HasContent(d: Fields) {
    exists k :: k in d.keys && k in d.vals && d.vals[k] != []
  }

  /** A resource is written exactly when some field name gives it at least
      one string that is kept. */
  lemma DataResourceContent(x: Extraction, r: Resource)
    ensures HasContent(DataResource(x, r)) <==> exists f :: f in x.fieldNames && Kept(x, r, f) != []
  {
    DataOfKeys(x, r, x.fieldNames);
    var d := DataResource(x, r);
    if HasContent(d) {
      var k :| k in d.keys && k in d.vals && d.vals[k] != [];
      assert k in Contributing(x, r, x.fieldNames);
      DataOfValue(x, r, x.fieldNames, k);
    }
    if f :| f in x.fieldNames && Kept(x, r, f) != [] {
      assert f in Contributing(x, r, x.fieldNames);
      assert f in d.keys;
      DataOfValue(x, r, x.fieldNames, f);
      RepeatHas(Kept(x, r, f), Count(x.fieldNames, f));
    }
  }

  // ---------------------------------------------------------------------------
  // The API, the stop signal, and where the page loop of one type ends

  /** The API as the writer sees it during one export:
      `mapResourceTypeToApiResource` as a partial map (a type without an
      entry has no API resource), the total a count search reports for each
      API resource, and the successive pages a search returns, the page at
      offset 100 * k being `pages(name)[k]` and every later page empty. */
  datatype Api = Api(
    names: map<string, string>,
    totals: string -> nat,
    pages: string -> seq<seq<Resource>>)

  function PageAt(pages: seq<seq<Resource>>, k: nat): seq<Resource> {
    if k < |pages| then pages[k] else []
  }

  /** The answer of the `n`-th call to `shouldStop()`. */
  function StopAt(stops: seq<bool>, n: nat): bool {
    n < |stops| && stops[n]
  }

  /** The loop goes past page `j`: no stop signal at its poll, and the page is not empty. */
  predicate Continues(pages: seq<seq<Resource>>, stops: seq<bool>, poll: nat, j: nat) {
    !StopAt(stops, poll + j) && PageAt(pages, j) != []
  }

  /** Where a page loop ends: after how many full pages, and whether the
      stop signal ended it (otherwise an empty page did). */
  datatype Halt = Halt(pages: nat, stopped: bool)

  /** The end of a page loop whose poll for page `k` is call `poll + k` of
      `shouldStop()`, seen from page `k` on. */
  function HaltFrom(pages: seq<seq<Resource>>, stops: seq<bool>, poll: nat, k: nat): Halt
    requires k <= |pages|
    decreases |pages| - k
  {
    if StopAt(stops, poll + k) then Halt(k, true)
    else if PageAt(pages, k) == [] then Halt(k, false)
    else HaltFrom(pages, stops, poll, k + 1)
  }

  /** The loop ends at the first page whose poll sees the stop signal or
      which comes back empty, and goes past every page before it. */
  lemma {:induction false} HaltFromSpec(pages: seq<seq<Resource>>, stops: seq<bool>, poll: nat, k: nat)
    requires k <= |pages|
    ensures var h := HaltFrom(pages, stops, poll, k);
      && k <= h.pages <= |pages|
      && (forall j | k <= j < h.pages :: Continues(pages, stops, poll, j))
      && (h.stopped ==> StopAt(stops, poll + h.pages))
      && (!h.stopped ==> !StopAt(stops, poll + h.pages) && PageAt(pages, h.pages) == [])
    decreases |pages| - k
  {
    if !StopAt(stops, poll + k) && PageAt(pages, k) != [] {
      assert Continues(pages, stops, poll, k);
      HaltFromSpec(pages, stops, poll, k + 1);
    }
  }

  /** One step of the page loop: a stop signal or an empty page ends it at
      page `k`, and otherwise it goes on from page `k + 1`. */
  lemma HaltStep(pages: seq<seq<Resource>>, stops: seq<bool>, poll: nat, k: nat)
    requires k <= |pages|
    ensures StopAt(stops, poll + k) ==> HaltFrom(pages, stops, poll, k) == Halt(k, true)
    ensures !StopAt(stops, poll + k) && PageAt(pages, k) == [] ==> HaltFrom(pages, stops, poll, k) == Halt(k, false)
    ensures Continues(pages, stops, poll, k) ==> k < |pages| && HaltFrom(pages, stops, poll, k) == HaltFrom(pages, stops, poll, k + 1)
  {
  }

  /** The resources of the first `n` pages, in order. */
  function Visited(pages: seq<seq<Resource>>, n: nat): seq<Resource>
    decreases n
  {
    if n == 0 then [] else Visited(pages, n - 1) + PageAt(pages, n - 1)
  }

  /** The requests of the first `n` pages: page `j` asks for offset 100 * j. */
  function PageRequests(name: string, q: Query, n: nat): seq<Request> {
    if n == 0 then [] else PageRequests(name, q, n - 1) + [Request(name, PageQuery(SqlLimit * (n - 1), q))]
  }

  /** Logging the request of page `k` after those of the first `k` pages
      gives the requests of the first `k + 1` pages. */
  lemma RequestsNext(before: seq<Request>, name: string, q: Query, k: nat)
    ensures before + PageRequests(name, q, k) + [Request(name, PageQuery(SqlLimit * k, q))]
      == before + PageRequests(name, q, k + 1)
  {
  }

  /** Page `j` is asked for at offset 100 * j: the offset starts at 0 and
      grows by the page size. */
  lemma {:induction false} PageRequestsSpec(name: string, q: Query, n: nat)
    ensures |PageRequests(name, q, n)| == n
    ensures forall j | 0 <= j < n :: PageRequests(name, q, n)[j] == Request(name, PageQuery(SqlLimit * j, q))
  {
    if n > 0 {
      var before := PageRequests(name, q, n - 1);
      PageRequestsSpec(name, q, n - 1);
      assert PageRequests(name, q, n) == before + [Request(name, PageQuery(SqlLimit * (n - 1), q))];
      assert forall j | 0 <= j < n - 1 :: PageRequests(name, q, n)[j] == before[j];
    }
  }

  /** Every page search asks for 100 rows at its own offset, and carries
      neither `page` nor `per_page` when the query had them unset. */
  lemma PageRequestsPaging(name: string, q: Query, n: nat, j: nat)
    requires j < n
    ensures |PageRequests(name, Unpaged(q), n)| == n
    ensures var req := PageRequests(name, Unpaged(q), n)[j];
      && req.resource == name
      && Limit in req.query.keys && Limit in req.query.vals && req.query.vals[Limit] == Num(SqlLimit)
      && Offset in req.query.keys && Offset in req.query.vals && req.query.vals[Offset] == Num(SqlLimit * j)
      && Page !in req.query.keys && PerPage !in req.query.keys
  {
    PageRequestsSpec(name, Unpaged(q), n);
    PageQuerySpec(SqlLimit * j, Unpaged(q));
    UnpagedSpec(q);
  }

  // ---------------------------------------------------------------------------
  // Counters and written rows

  /** The process counters of one resource type. */
  datatype Stats = Stats(total: int, processed: nat, succeed: nat, skipped: nat)

  /** What writing one resource comes to: its map, handed to `writeFields`
      when some field name yields a kept string, or nothing when the resource
      is skipped. */
  function WriteOf(x: Extraction, r: Resource): (o: Resources.Option<Fields>)
    ensures o.Some? <==> exists f :: f in x.fieldNames && Kept(x, r, f) != []
    ensures o.Some? ==> o.value == DataResource(x, r)
  {
    DataResourceContent(x, r);
    var d := DataResource(x, r);
    if HasContent(d) then Resources.Some(d) else Resources.None
  }

  /** How each resource is written. The rows and the counters below are
      stated for any such function; the writer's is `WritesOf` of its
      extraction. */
  type Writes = Resource -> Resources.Option<Fields>

  function WritesOf(x: Extraction): Writes {
    r => WriteOf(x, r)
  }

  /** The rows `writeFields` receives for the resources `rs`, in order. */
  function Rows(w: Writes, rs: seq<Resource>): seq<Fields> {
    RowsTo(w, rs, |rs|)
  }

  /** The rows for the first `n` resources of `rs`. */
  function RowsTo(w: Writes, rs: seq<Resource>, n: nat): seq<Fields>
    requires n <= |rs|
    decreases n
  {
    if n == 0 then [] else RowsTo(w, rs, n - 1) + RowOf(w, rs[n - 1])
  }

  /** The rows for a prefix depend on that prefix only. */
  lemma {:induction false} RowsToPrefix(w: Writes, a: seq<Resource>, b: seq<Resource>, n: nat)
    requires n <= |a|
    ensures RowsTo(w, a + b, n) == RowsTo(w, a, n)
    decreases n
  {
    if n > 0 {
      RowsToPrefix(w, a, b, n - 1);
      assert (a + b)[n - 1] == a[n - 1];
    }
  }

  /** The row one resource adds, if any. */
  function RowOf(w: Writes, r: Resource): seq<Fields> {
    if w(r).Some? then [w(r).value] else []
  }

  lemma RowsSnoc(w: Writes, rs: seq<Resource>, r: Resource)
    ensures Rows(w, rs + [r]) == Rows(w, rs) + RowOf(w, r)
  {
    RowsToPrefix(w, rs, [r], |rs|);
    assert (rs + [r])[|rs|] == r;
  }

  /** Only maps with content are written. */
  lemma {:induction false} RowsSpec(x: Extraction, rs: seq<Resource>)
    ensures forall row | row in Rows(WritesOf(x), rs) :: HasContent(row)
    decreases |rs|
  {
    if rs != [] {
      var rs0, r := rs[..|rs| - 1], rs[|rs| - 1];
      assert rs == rs0 + [r];
      RowsSpec(x, rs0);
      RowsSnoc(WritesOf(x), rs0, r);
      assert WritesOf(x)(r) == WriteOf(x, r);
    }
  }

  /** At most one row per resource. */
  lemma {:induction false} RowsLength(w: Writes, rs: seq<Resource>)
    ensures |Rows(w, rs)| <= |rs|
    decreases |rs|
  {
    if rs != [] {
      var rs0, r := rs[..|rs| - 1], rs[|rs| - 1];
      assert rs == rs0 + [r];
      RowsLength(w, rs0);
      RowsSnoc(w, rs0, r);
    }
  }

  /** The counters of a type after the resources `rs`: every resource is
      processed, and is counted as succeeded when its map is written and as
      skipped otherwise. */
  function Tally(w: Writes, total: int, rs: seq<Resource>): Stats {
    RowsLength(w, rs);
    Stats(total, |rs|, |Rows(w, rs)|, |rs| - |Rows(w, rs)|)
  }

  lemma TallyNext(w: Writes, total: int, rs: seq<Resource>, r: Resource)
    ensures (rs + [r])[..|rs|] == rs
    ensures Tally(w, total, rs + [r]) ==
      if w(r).Some? then Tally(w, total, rs).(processed := |rs| + 1, succeed := Tally(w, total, rs).succeed + 1)
      else Tally(w, total, rs).(processed := |rs| + 1, skipped := Tally(w, total, rs).skipped + 1)
    ensures Rows(w, rs + [r]) == Rows(w, rs) + RowOf(w, r)
  {
    SnocPrefix(rs, r);
    RowsSnoc(w, rs, r);
  }

  /** The rows of the first `n` pages, page by page. */
  function PageRows(w: Writes, pages: seq<seq<Resource>>, n: nat): seq<Fields>
    decreases n
  {
    if n == 0 then [] else PageRows(w, pages, n - 1) + Rows(w, PageAt(pages, n - 1))
  }

  /** Writing the resources of two runs one after the other writes the rows
      of each, in order. */
  lemma RowsConcat(w: Writes, a: seq<Resource>, b: seq<Resource>)
    ensures Rows(w, a + b) == Rows(w, a) + Rows(w, b)
  {
    RowsToConcat(w, a, b, |b|);
  }

  /** The rows for `a` followed by the first `n` resources of `b`. */
  lemma {:induction false} RowsToConcat(w: Writes, a: seq<Resource>, b: seq<Resource>, n: nat)
    requires n <= |b|
    ensures RowsTo(w, a + b, |a| + n) == Rows(w, a) + RowsTo(w, b, n)
    decreases n
  {
    if n == 0 {
      RowsToPrefix(w, a, b, |a|);
      assert Rows(w, a) + [] == Rows(w, a);
    } else {
      RowsToConcat(w, a, b, n - 1);
      assert (a + b)[|a| + n - 1] == b[n - 1];
      var p, q, o := Rows(w, a), RowsTo(w, b, n - 1), RowOf(w, b[n - 1]);
      assert (p + q) + o == p + (q + o);
    }
  }

  /** Page by page, the loop writes the rows of all the resources it visits. */
  lemma {:induction false} PageRowsVisited(w: Writes, pages: seq<seq<Resource>>, n: nat)
    ensures PageRows(w, pages, n) == Rows(w, Visited(pages, n))
    decreases n
  {
    if n > 0 {
      PageRowsVisited(w, pages, n - 1);
      RowsConcat(w, Visited(pages, n - 1), PageAt(pages, n - 1));
    }
  }

  /** The counters after the first `k` pages: every resource visited is
      processed, the written ones as succeeded and the others as skipped. */
  predicate Counted(w: Writes, total: int, pages: seq<seq<Resource>>, k: nat, stats: Stats) {
    && stats.total == total && stats.processed == |Visited(pages, k)|
    && stats.succeed == |PageRows(w, pages, k)| && stats.processed == stats.succeed + stats.skipped
  }

  /** Counting page `k` after the pages before it counts the first `k + 1` pages. */
  lemma CountedNext(w: Writes, total: int, pages: seq<seq<Resource>>, k: nat, stats0: Stats, stats: Stats)
    requires Counted(w, total, pages, k, stats0)
    requires stats.total == stats0.total && stats.processed == stats0.processed + |PageAt(pages, k)|
    requires stats.succeed == stats0.succeed + |Rows(w, PageAt(pages, k))|
    requires stats.skipped + |Rows(w, PageAt(pages, k))| == stats0.skipped + |PageAt(pages, k)|
    ensures Counted(w, total, pages, k + 1, stats)
    ensures PageRows(w, pages, k + 1) == PageRows(w, pages, k) + Rows(w, PageAt(pages, k))
  {
  }

  /** Counters kept page by page are those of all the visited resources,
      and so are the rows written. */
  lemma CountedTally(w: Writes, total: int, pages: seq<seq<Resource>>, k: nat, stats: Stats)
    requires Counted(w, total, pages, k, stats)
    ensures stats == Tally(w, total, Visited(pages, k))
    ensures PageRows(w, pages, k) == Rows(w, Visited(pages, k))
  {
    PageRowsVisited(w, pages, k);
  }

  // ---------------------------------------------------------------------------
  // Counting

  /** `countResources()` for the types `types`: each type, once and in the
      order of its first occurrence, with the total of its API resource,
      or 0 when it has none. */
  function Counts(api: Api, types: seq<string>): (r: Assoc<string, int>)
    ensures r.keys == AddNew([], types)
    ensures forall t | t in r.keys :: r.vals[t] == if t in api.names then api.totals(api.names[t]) else 0
    decreases |types|
  {
    if types == [] then Empty()
    else
      var t := types[|types| - 1];
      AddNewOne(AddNew([], types[..|types| - 1]), t);
      AddNewConcat([], types[..|types| - 1], [t]);
      assert types[..|types| - 1] + [t] == types;
      Put(Counts(api, types[..|types| - 1]), t, if t in api.names then api.totals(api.names[t]) else 0)
  }

  /** One turn of the counting loop: the type at `i` is counted. */
  lemma CountStep(api: Api, types: seq<string>, i: nat, counts: Assoc<string, int>)
    requires i < |types| && counts == Counts(api, types[..i])
    ensures var t := types[i];
      Put(counts, t, if t in api.names then api.totals(api.names[t]) else 0) == Counts(api, types[..i + 1])
  {
    PrefixNext(types, i);
    assert types[..i + 1][..i] == types[..i];
  }

  /** One turn of the counting loop: the search for the type at `i` is sent
      when it has an API resource. */
  lemma CountRequestStep(api: Api, q: Query, types: seq<string>, i: nat, requests: seq<Request>, r0: seq<Request>)
    requires i < |types| && requests == r0 + CountRequests(api, q, types[..i])
    ensures var t := types[i];
      requests + (if t in api.names then [Request(api.names[t], CountQuery(q))] else [])
        == r0 + CountRequests(api, q, types[..i + 1])
  {
    PrefixNext(types, i);
    assert types[..i + 1][..i] == types[..i];
    var more := if types[i] in api.names then [Request(api.names[types[i]], CountQuery(q))] else [];
    assert r0 + CountRequests(api, q, types[..i]) + more == r0 + (CountRequests(api, q, types[..i]) + more);
  }

  /** The count searches sent for the types `types`: one per type with an API resource. */
  function CountRequests(api: Api, q: Query, types: seq<string>): seq<Request>
    decreases |types|
  {
    if types == [] then []
    else
      var t := types[|types| - 1];
      CountRequests(api, q, types[..|types| - 1])
        + (if t in api.names then [Request(api.names[t], CountQuery(q))] else [])
  }

  /** Every count search asks for no rows. */
  lemma {:induction false} CountRequestsLimit(api: Api, q: Query, types: seq<string>)
    ensures forall req | req in CountRequests(api, q, types) ::
      Limit in req.query.keys && Limit in req.query.vals && req.query.vals[Limit] == Num(0)
    decreases |types|
  {
    if types != [] {
      CountRequestsLimit(api, q, types[..|types| - 1]);
    }
  }

  /** `array_sum`. */
  function Sum(s: seq<int>): int
    decreases |s|
  {
    if s == [] then 0 else Sum(s[..|s| - 1]) + s[|s| - 1]
  }

  /** Nothing is exported when no type is selected or when the totals add up to 0. */
  predicate NothingToExport(totals: Assoc<string, int>) {
    totals.keys == [] || Sum(Values(totals)) == 0
  }

  // ---------------------------------------------------------------------------
  // The types the driver starts

  /** A resource type the driver started, and where its page loop ended. */
  datatype Run = Run(resourceType: string, halt: Halt)

  /** The types `appendResources` starts, from the `i`-th one on, whose
      first stop poll is call `poll` of `shouldStop()`: each type is started
      in turn until one is stopped, and a type without an API resource ends
      the export (the adapter lookup throws). */
  function Runs(api: Api, stops: seq<bool>, types: seq<string>, i: nat, poll: nat): seq<Run>
    decreases |types| - i
  {
    if i >= |types| || types[i] !in api.names then []
    else
      var h := HaltFrom(api.pages(api.names[types[i]]), stops, poll, 0);
      [Run(types[i], h)] + (if h.stopped then [] else Runs(api, stops, types, i + 1, poll + h.pages + 1))
  }

  /** Every run is of a type with an API resource. */
  predicate Mapped(api: Api, runs: seq<Run>)
    decreases |runs|
  {
    runs == [] || (Mapped(api, runs[..|runs| - 1]) && runs[|runs| - 1].resourceType in api.names)
  }

  function RunPages(api: Api, run: Run): seq<seq<Resource>>
    requires run.resourceType in api.names
  {
    api.pages(api.names[run.resourceType])
  }

  /** The rows written by the runs, in order. */
  function RunRows(w: Writes, api: Api, runs: seq<Run>): seq<Fields>
    requires Mapped(api, runs)
    decreases |runs|
  {
    if runs == [] then []
    else
      var run := runs[|runs| - 1];
      RunRows(w, api, runs[..|runs| - 1]) + Rows(w, Visited(RunPages(api, run), run.halt.pages))
  }

  /** The process counters of every type, after the runs. */
  function RunStats(w: Writes, api: Api, totals: Assoc<string, int>, runs: seq<Run>): Assoc<string, Stats>
    requires Mapped(api, runs)
    decreases |runs|
  {
    if runs == [] then Empty()
    else
      var run := runs[|runs| - 1];
      Put(RunStats(w, api, totals, runs[..|runs| - 1]), run.resourceType,
          Tally(w, Lookup(totals, run.resourceType, 0), Visited(RunPages(api, run), run.halt.pages)))
  }

  /** Each resource processed was either written or skipped, and no more
      were written than processed, for every type of `process`. */
  predicate Balanced(process: Assoc<string, Stats>) {
    forall t | t in process.keys ::
      && process.vals[t].processed == process.vals[t].succeed + process.vals[t].skipped
      && process.vals[t].succeed <= process.vals[t].processed
  }

  /** The counters the runs record are balanced for every type. */
  lemma {:induction false} RunStatsBalanced(w: Writes, api: Api, totals: Assoc<string, int>, runs: seq<Run>)
    requires Mapped(api, runs)
    ensures Balanced(RunStats(w, api, totals, runs))
    decreases |runs|
  {
    if runs != [] {
      var run := runs[|runs| - 1];
      var rs := Visited(RunPages(api, run), run.halt.pages);
      RunStatsBalanced(w, api, totals, runs[..|runs| - 1]);
      RowsLength(w, rs);
    }
  }

  /** Whether the driver, from the `i`-th type on, throws on the way: it
      reaches, before any stop, a type without an API resource. */
  predicate Throws(api: Api, stops: seq<bool>, types: seq<string>, i: nat, poll: nat)
    decreases |types| - i
  {
    && i < |types|
    && (types[i] !in api.names
        || var h := HaltFrom(api.pages(api.names[types[i]]), stops, poll, 0);
           !h.stopped && Throws(api, stops, types, i + 1, poll + h.pages + 1))
  }

  /** The types `appendResources` starts: none when nothing is to be
      exported or the job was stopped before, otherwise the runs of the
      selected types from the current stop poll on. */
  function Started(api: Api, stops: seq<bool>, types: seq<string>, poll: nat, stopped: bool,
                   counted: Assoc<string, int>): seq<Run>
  {
    if stopped || NothingToExport(counted) then [] else Runs(api, stops, types, 0, poll)
  }

  /** The stop polls of the runs: one per full page processed, and one more
      at the turn that ended each loop. */
  function RunPolls(runs: seq<Run>): nat
    decreases |runs|
  {
    if runs == [] then 0 else RunPolls(runs[..|runs| - 1]) + runs[|runs| - 1].halt.pages + 1
  }

  /** The page searches of the runs, in order. */
  function RunRequests(api: Api, q: Query, runs: seq<Run>): seq<Request>
    requires Mapped(api, runs)
    decreases |runs|
  {
    if runs == [] then []
    else
      var run := runs[|runs| - 1];
      RunRequests(api, q, runs[..|runs| - 1])
        + PageRequests(api.names[run.resourceType], q, if run.halt.stopped then run.halt.pages else run.halt.pages + 1)
  }

  /** Unsetting the paging keys of the query changes no other option. */
  lemma QueryUpdateKeeps(options: Options, q: Query, fieldNames: seq<string>,
                         metadata: (Resource, string) -> seq<string>)
    ensures var o := Put(options, QueryOption, QueryValue(q));
      && ExtractionOf(o, fieldNames, metadata) == ExtractionOf(options, fieldNames, metadata)
      && ResourceTypesOf(o) == ResourceTypesOf(options)
      && QueryOf(o) == q
  {
  }

  /** The part of a writer's state the page loop changes: its stop polls,
      its stop flag and its logs. */
  datatype Paging = Paging(polls: nat, jobIsStopped: bool, requests: seq<Request>, written: seq<Fields>)

  /** The state of a writer: its options, stop polls, counters and logs. */
  datatype Snap = Snap(options: Options, polls: nat, jobIsStopped: bool, totals: Assoc<string, int>,
                       process: Assoc<string, Stats>, requests: seq<Request>, written: seq<Fields>)

  /** What `appendResources()` does, from the state `s0` to the state `s`:
      the totals of the selected types are counted; the runs started are
      those of `Started`; their counters, rows, stop polls and page searches
      are recorded in order; the job is stopped when it was before or when
      the last run was stopped; and `ok` is false exactly when the export
      throws on a type without an API resource. */
  ghost predicate Exported(api: Api, stops: seq<bool>, fieldNames: seq<string>,
                           metadata: (Resource, string) -> seq<string>, s0: Snap, s: Snap, ok: bool)
  {
    var types := ResourceTypesOf(s0.options);
    var counted := Counts(api, types);
    var runs := Started(api, stops, types, s0.polls, s0.jobIsStopped, counted);
    var w := WritesOf(ExtractionOf(s0.options, fieldNames, metadata));
    var q := Unpaged(QueryOf(s0.options));
    && s.totals == counted
    && Mapped(api, runs)
    && s.process == RunStats(w, api, counted, runs)
    && s.written == s0.written + RunRows(w, api, runs)
    && s.polls == s0.polls + RunPolls(runs)
    && s.jobIsStopped == (s0.jobIsStopped || (runs != [] && runs[|runs| - 1].halt.stopped))
    && s.requests == s0.requests + CountRequests(api, QueryOf(s0.options), types) + RunRequests(api, q, runs)
    && s.options == (if runs == [] then s0.options else Put(s0.options, QueryOption, QueryValue(q)))
    && ok == !(!s0.jobIsStopped && !NothingToExport(counted) && Throws(api, stops, types, 0, s0.polls))
  }

  /** The driver's loop at the `i`-th selected type, after the runs `done`. */
  ghost predicate DriverAt(api: Api, stops: seq<bool>, w: Writes, types: seq<string>, i: nat,
                           done: seq<Run>, s0: Snap, s: Snap)
  {
    DriverLog(api, w, types, done, s0, s) && DriverRuns(api, stops, types, i, done, s0, s)
  }

  /** What the runs `done` recorded: counters, rows, stop polls, searches and options. */
  ghost predicate DriverLog(api: Api, w: Writes, types: seq<string>, done: seq<Run>, s0: Snap, s: Snap) {
    LogCounts(api, w, types, done, s0, s) && LogOutput(api, w, types, done, s0, s)
  }

  /** The counters and stop polls of the runs `done`. */
  ghost predicate LogCounts(api: Api, w: Writes, types: seq<string>, done: seq<Run>, s0: Snap, s: Snap) {
    var counted := Counts(api, types);
    && Mapped(api, done)
    && s.totals == counted
    && s.polls == s0.polls + RunPolls(done)
    && s.process == RunStats(w, api, counted, done)
  }

  /** The rows, searches and options the runs `done` leave. */
  ghost predicate LogOutput(api: Api, w: Writes, types: seq<string>, done: seq<Run>, s0: Snap, s: Snap) {
    var q := Unpaged(QueryOf(s0.options));
    && Mapped(api, done)
    && s.written == s0.written + RunRows(w, api, done)
    && s.requests == s0.requests + CountRequests(api, QueryOf(s0.options), types) + RunRequests(api, q, done)
    && s.options == (if done == [] then s0.options else Put(s0.options, QueryOption, QueryValue(q)))
  }

  /** Where the runs `done` leave the driver: what is left of `Runs` from the
      state `s0` is the runs from the current type and stop poll on, unless
      the job is stopped. */
  ghost predicate DriverRuns(api: Api, stops: seq<bool>, types: seq<string>, i: nat, done: seq<Run>, s0: Snap, s: Snap) {
    RunsState(i, |types|, s0.jobIsStopped, s.jobIsStopped, done,
              Runs(api, stops, types, 0, s0.polls), Runs(api, stops, types, i, s.polls),
              Throws(api, stops, types, 0, s0.polls), Throws(api, stops, types, i, s.polls))
  }

  /** Where the driver's loop stands at type `i` of `n`, given the runs
      `all` and the throw verdict `throws0` of the whole export, and the
      runs `rest` and throw verdict `throwsAt` from type `i` on: `done` is
      what has run, the stop flag is set exactly when the last of those
      runs was stopped, and until then the rest of the export is what
      follows from `i`. */
  predicate RunsState(i: nat, n: nat, stopped0: bool, stopped: bool, done: seq<Run>,
                      all: seq<Run>, rest: seq<Run>, throws0: bool, throwsAt: bool) {
    && i <= n
    && (stopped0 ==> done == [] && stopped)
    && (!stopped0 ==> stopped == (done != [] && done[|done| - 1].halt.stopped))
    && (!stopped ==> all == done + rest && (throws0 <==> throwsAt))
    && (stopped && !stopped0 ==> all == done && !throws0)
  }

  /** The loop goes on past a run that was not stopped. */
  lemma StateGoOn(i: nat, n: nat, stopped0: bool, done: seq<Run>, all: seq<Run>, rest: seq<Run>,
                  run: Run, rest1: seq<Run>, throws0: bool, throwsAt: bool, throwsNext: bool)
    requires RunsState(i, n, stopped0, false, done, all, rest, throws0, throwsAt)
    requires i < n && !run.halt.stopped
    requires all == done + [run] + rest1 && (throws0 <==> throwsNext)
    ensures RunsState(i + 1, n, stopped0, false, done + [run], all, rest1, throws0, throwsNext)
  {
    assert (done + [run])[|done|] == run;
  }

  /** The loop ends on a run that was stopped. */
  lemma StateStop(i: nat, n: nat, stopped0: bool, done: seq<Run>, all: seq<Run>, rest: seq<Run>,
                  run: Run, rest1: seq<Run>, throws0: bool, throwsAt: bool, throwsNext: bool)
    requires RunsState(i, n, stopped0, false, done, all, rest, throws0, throwsAt)
    requires i < n && run.halt.stopped
    requires all == done + [run] && !throws0
    ensures RunsState(i + 1, n, stopped0, true, done + [run], all, rest1, throws0, throwsNext)
  {
    assert (done + [run])[|done|] == run;
  }

  /** The state after counting, with no process counters yet. */
  function Counted0(api: Api, types: seq<string>, s0: Snap): Snap {
    s0.(totals := Counts(api, types), process := Empty(),
        requests := s0.requests + CountRequests(api, QueryOf(s0.options), types))
  }

  /** Nothing to export: the driver ends after counting. */
  lemma NothingEnd(api: Api, stops: seq<bool>, fieldNames: seq<string>,
                   metadata: (Resource, string) -> seq<string>, s0: Snap)
    requires NothingToExport(Counts(api, ResourceTypesOf(s0.options)))
    ensures Exported(api, stops, fieldNames, metadata, s0, Counted0(api, ResourceTypesOf(s0.options), s0), true)
  {
    var types := ResourceTypesOf(s0.options);
    DriverStart(api, stops, WritesOf(ExtractionOf(s0.options, fieldNames, metadata)), types, s0);
    Finish(api, stops, fieldNames, metadata, types, [], s0, Counted0(api, types, s0), true);
  }

  /** The driver ends after the runs `runs`, the ones `Started` names. */
  lemma Finish(api: Api, stops: seq<bool>, fieldNames: seq<string>, metadata: (Resource, string) -> seq<string>,
               types: seq<string>, runs: seq<Run>, s0: Snap, s: Snap, ok: bool)
    requires types == ResourceTypesOf(s0.options)
    requires DriverLog(api, WritesOf(ExtractionOf(s0.options, fieldNames, metadata)), types, runs, s0, s)
    requires runs == Started(api, stops, types, s0.polls, s0.jobIsStopped, Counts(api, types))
    requires s.jobIsStopped == (s0.jobIsStopped || (runs != [] && runs[|runs| - 1].halt.stopped))
    requires ok == !(!s0.jobIsStopped && !NothingToExport(Counts(api, types)) && Throws(api, stops, types, 0, s0.polls))
    ensures Exported(api, stops, fieldNames, metadata, s0, s, ok)
  {
  }

  lemma DriverStart(api: Api, stops: seq<bool>, w: Writes, types: seq<string>, s0: Snap)
    ensures DriverAt(api, stops, w, types, 0, [], s0, Counted0(api, types, s0))
  {
    LogStart(api, w, types, s0);
    StateStart(|types|, s0.jobIsStopped, Runs(api, stops, types, 0, s0.polls), Throws(api, stops, types, 0, s0.polls));
  }

  /** After counting, the log holds the count requests and nothing has run. */
  lemma LogStart(api: Api, w: Writes, types: seq<string>, s0: Snap)
    ensures DriverLog(api, w, types, [], s0, Counted0(api, types, s0))
  {
    assert s0.written + [] == s0.written;
    assert s0.requests + CountRequests(api, QueryOf(s0.options), types) + [] == s0.requests + CountRequests(api, QueryOf(s0.options), types);
  }

  /** Before the first type, the whole export is still to come. */
  lemma StateStart(n: nat, stopped0: bool, all: seq<Run>, throws0: bool)
    ensures RunsState(0, n, stopped0, stopped0, [], all, all, throws0, throws0)
  {
    assert [] + all == all;
  }

  /** The stop polls of the runs so far, extended by one more. */
  lemma PollsStep(poll0: nat, done: seq<Run>, run: Run, poll: nat, poll1: nat)
    requires poll == poll0 + RunPolls(done) && poll1 == poll + run.halt.pages + 1
    ensures poll1 == poll0 + RunPolls(done + [run])
  {
    assert (done + [run])[..|done|] == done;
  }

  /** The counters of the runs so far, extended by one more. */
  lemma StatsStep(w: Writes, api: Api, totals: Assoc<string, int>, done: seq<Run>, run: Run,
                  process: Assoc<string, Stats>, process1: Assoc<string, Stats>)
    requires Mapped(api, done + [run])
    requires process == RunStats(w, api, totals, done)
    requires process1 == Put(process, run.resourceType,
      Tally(w, Lookup(totals, run.resourceType, 0), Visited(RunPages(api, run), run.halt.pages)))
    ensures process1 == RunStats(w, api, totals, done + [run])
  {
    assert (done + [run])[..|done|] == done;
  }

  lemma MappedSnoc(api: Api, done: seq<Run>, run: Run)
    requires Mapped(api, done) && run.resourceType in api.names
    ensures Mapped(api, done + [run])
  {
    assert (done + [run])[..|done|] == done;
  }

  /** The runs of the driver at type `i`, when that type is started and
      its page loop is not stopped: the driver goes on from the next type. */
  lemma RunsGoOn(api: Api, stops: seq<bool>, types: seq<string>, i: nat, done: seq<Run>, poll0: nat, poll: nat, h: Halt)
    requires i < |types| && types[i] in api.names
    requires h == HaltFrom(api.pages(api.names[types[i]]), stops, poll, 0) && !h.stopped
    requires Runs(api, stops, types, 0, poll0) == done + Runs(api, stops, types, i, poll)
    ensures Runs(api, stops, types, 0, poll0) == done + [Run(types[i], h)] + Runs(api, stops, types, i + 1, poll + h.pages + 1)
  {
    RunsUnfold(api, stops, types, i, poll, h);
    Regroup(Runs(api, stops, types, 0, poll0), done, Runs(api, stops, types, i, poll),
            Run(types[i], h), Runs(api, stops, types, i + 1, poll + h.pages + 1));
  }

  /** The runs from a type with an API resource whose page loop is not
      stopped: that type's run, then the runs from the next type. */
  lemma RunsUnfold(api: Api, stops: seq<bool>, types: seq<string>, i: nat, poll: nat, h: Halt)
    requires i < |types| && types[i] in api.names
    requires h == HaltFrom(api.pages(api.names[types[i]]), stops, poll, 0) && !h.stopped
    ensures Runs(api, stops, types, i, poll) == [Run(types[i], h)] + Runs(api, stops, types, i + 1, poll + h.pages + 1)
  {
    var rest := Runs(api, stops, types, i + 1, poll + h.pages + 1);
    calc {
      Runs(api, stops, types, i, poll);
      [Run(types[i], h)] + (if h.stopped then [] else rest);
      [Run(types[i], h)] + rest;
    }
  }

  /** Whether the driver throws, when the type at `i` is started and its
      page loop is not stopped: whether it throws from the next type on. */
  lemma ThrowsGoOn(api: Api, stops: seq<bool>, types: seq<string>, i: nat, poll0: nat, poll: nat, h: Halt)
    requires i < |types| && types[i] in api.names
    requires h == HaltFrom(api.pages(api.names[types[i]]), stops, poll, 0) && !h.stopped
    requires Throws(api, stops, types, 0, poll0) <==> Throws(api, stops, types, i, poll)
    ensures Throws(api, stops, types, 0, poll0) <==> Throws(api, stops, types, i + 1, poll + h.pages + 1)
  {
  }

  /** The runs of the driver at type `i`, when that type is started and
      its page loop is stopped: it is the last run, and nothing throws. */
  lemma RunsStop(api: Api, stops: seq<bool>, types: seq<string>, i: nat, done: seq<Run>, poll0: nat, poll: nat, h: Halt)
    requires i < |types| && types[i] in api.names
    requires h == HaltFrom(api.pages(api.names[types[i]]), stops, poll, 0) && h.stopped
    requires Runs(api, stops, types, 0, poll0) == done + Runs(api, stops, types, i, poll)
    requires Throws(api, stops, types, 0, poll0) <==> Throws(api, stops, types, i, poll)
    ensures Runs(api, stops, types, 0, poll0) == done + [Run(types[i], h)]
    ensures !Throws(api, stops, types, 0, poll0)
  {
    assert Runs(api, stops, types, i, poll) == [Run(types[i], h)] + [];
    assert [Run(types[i], h)] + [] == [Run(types[i], h)];
  }

  /** What `appendResourcesForResourceType` does for the type `t`, from the
      state `s` to the state `s1`: the paging keys are unset from the query,
      the page loop ends as `h` says, and the counters and rows of the pages
      it visited are recorded. */
  ghost predicate TypeRan(api: Api, stops: seq<bool>, fieldNames: seq<string>,
                          metadata: (Resource, string) -> seq<string>, t: string, s: Snap, h: Halt, s1: Snap)
  {
    var q := Unpaged(QueryOf(s.options));
    && t in api.names
    && h == HaltFrom(api.pages(api.names[t]), stops, s.polls, 0)
    && s1.options == Put(s.options, QueryOption, QueryValue(q))
    && s1.jobIsStopped == (s.jobIsStopped || h.stopped)
    && Recorded(api, WritesOf(ExtractionOf(s.options, fieldNames, metadata)), q, Run(t, h), s, s1)
  }

  /** The state `s1` records the run `run` after `s`, each resource written
      by `w` and each page searched with the query `q`: its counters, rows,
      stop polls and searches. */
  ghost predicate Recorded(api: Api, w: Writes, q: Query, run: Run, s: Snap, s1: Snap) {
    var h := run.halt;
    && run.resourceType in api.names
    && s1.totals == s.totals && s1.polls == s.polls + h.pages + 1
    && s1.process == Put(s.process, run.resourceType, Tally(w, Lookup(s.totals, run.resourceType, 0), Visited(RunPages(api, run), h.pages)))
    && s1.written == s.written + Rows(w, Visited(RunPages(api, run), h.pages))
    && s1.requests == s.requests + PageRequests(api.names[run.resourceType], q, if h.stopped then h.pages else h.pages + 1)
  }

  /** A page loop over the pages of `t` that ended as `h` says, followed by
      the storing of its counters, records the run of `t`. */
  lemma LoopRecorded(api: Api, w: Writes, q: Query, t: string, h: Halt, stats: Stats,
                     p0: Paging, p: Paging, s: Snap, s1: Snap)
    requires t in api.names
    requires p0 == Paging(s.polls, s.jobIsStopped, s.requests, s.written)
    requires p == Paging(s1.polls, s1.jobIsStopped, s1.requests, s1.written)
    requires p.polls == p0.polls + h.pages + 1
    requires stats == Tally(w, Lookup(s.totals, t, 0), Visited(api.pages(api.names[t]), h.pages))
    requires p.written == p0.written + Rows(w, Visited(api.pages(api.names[t]), h.pages))
    requires p.requests == p0.requests + PageRequests(api.names[t], q, if h.stopped then h.pages else h.pages + 1)
    requires s1.totals == s.totals && s1.process == Put(s.process, t, stats)
    ensures Recorded(api, w, q, Run(t, h), s, s1)
  {
    var run := Run(t, h);
    assert RunPages(api, run) == api.pages(api.names[t]);
    assert s1.polls == s.polls + h.pages + 1;
    assert s1.written == s.written + Rows(w, Visited(RunPages(api, run), h.pages));
  }

  /** One turn of the driver's loop: the type at `i` is run from `s` to `s1`. */
  lemma DriverStep(api: Api, stops: seq<bool>, fieldNames: seq<string>, metadata: (Resource, string) -> seq<string>,
                   w: Writes, types: seq<string>, i: nat, done: seq<Run>, s0: Snap, s: Snap, h: Halt, s1: Snap)
    requires w == WritesOf(ExtractionOf(s0.options, fieldNames, metadata))
    requires DriverAt(api, stops, w, types, i, done, s0, s)
    requires i < |types| && !s.jobIsStopped
    requires TypeRan(api, stops, fieldNames, metadata, types[i], s, h, s1)
    ensures DriverAt(api, stops, w, types, i + 1, done + [Run(types[i], h)], s0, s1)
  {
    RanLogNext(api, stops, fieldNames, metadata, w, types[i], done, s0, s, h, s1);
    LogStep(api, w, types, done, s0, s, Run(types[i], h), s1);
    RunsStep(api, stops, types, i, done, s0, s, h, s1);
  }

  /** Running a type after the runs `done` is one more run, from the same
      query and with the same extraction as the first. */
  lemma {:induction false} RanLogNext(api: Api, stops: seq<bool>, fieldNames: seq<string>, metadata: (Resource, string) -> seq<string>,
                   w: Writes, t: string, done: seq<Run>, s0: Snap, s: Snap, h: Halt, s1: Snap)
    requires w == WritesOf(ExtractionOf(s0.options, fieldNames, metadata))
    requires s.options == (if done == [] then s0.options else Put(s0.options, QueryOption, QueryValue(Unpaged(QueryOf(s0.options)))))
    requires TypeRan(api, stops, fieldNames, metadata, t, s, h, s1)
    ensures LogNext(api, w, s0, s, Run(t, h), s1)
  {
    if done != [] {
      SameQuery(s0.options, s.options, false, fieldNames, metadata);
    }
  }

  /** Before the first run the options are those the export started with,
      and after it they hold the unpaged query: either way they give the
      same extraction, the same unpaged query, and the same options once
      the unpaged query is stored. */
  lemma SameQuery(o0: Options, o: Options, first: bool, fieldNames: seq<string>,
                  metadata: (Resource, string) -> seq<string>)
    requires o == (if first then o0 else Put(o0, QueryOption, QueryValue(Unpaged(QueryOf(o0)))))
    ensures ExtractionOf(o, fieldNames, metadata) == ExtractionOf(o0, fieldNames, metadata)
    ensures Unpaged(QueryOf(o)) == Unpaged(QueryOf(o0))
    ensures Put(o, QueryOption, QueryValue(Unpaged(QueryOf(o)))) == Put(o0, QueryOption, QueryValue(Unpaged(QueryOf(o0))))
  {
    var q := Unpaged(QueryOf(o0));
    QueryUpdateKeeps(o0, q, fieldNames, metadata);
    UnpagedTwice(QueryOf(o0));
    PutTwice(o0, QueryOption, QueryValue(q));
  }

  /** The state `s1` records one more run than `s`: its counters, rows,
      stop polls and searches. */
  ghost predicate LogNext(api: Api, w: Writes, s0: Snap, s: Snap, run: Run, s1: Snap) {
    var q := Unpaged(QueryOf(s0.options));
    && Recorded(api, w, q, run, s, s1)
    && s1.options == Put(s0.options, QueryOption, QueryValue(q))
  }

  /** One turn of the driver's loop, for what the runs record: the run
      `run` goes from the state `s` to `s1`. */
  lemma LogStep(api: Api, w: Writes, types: seq<string>, done: seq<Run>, s0: Snap, s: Snap, run: Run, s1: Snap)
    requires DriverLog(api, w, types, done, s0, s)
    requires LogNext(api, w, s0, s, run, s1)
    ensures DriverLog(api, w, types, done + [run], s0, s1)
  {
    CountsStep(api, w, types, done, s0, s, run, s1);
    OutputStep(api, w, types, done, s0, s, run, s1);
  }

  lemma CountsStep(api: Api, w: Writes, types: seq<string>, done: seq<Run>, s0: Snap, s: Snap, run: Run, s1: Snap)
    requires LogCounts(api, w, types, done, s0, s)
    requires LogNext(api, w, s0, s, run, s1)
    ensures LogCounts(api, w, types, done + [run], s0, s1)
  {
    MappedSnoc(api, done, run);
    PollsStep(s0.polls, done, run, s.polls, s1.polls);
    StatsStep(w, api, s.totals, done, run, s.process, s1.process);
  }

  lemma OutputStep(api: Api, w: Writes, types: seq<string>, done: seq<Run>, s0: Snap, s: Snap, run: Run, s1: Snap)
    requires LogOutput(api, w, types, done, s0, s)
    requires LogNext(api, w, s0, s, run, s1)
    ensures LogOutput(api, w, types, done + [run], s0, s1)
  {
    LogWritten(api, w, types, done, s0, s, run, s1);
    LogRequests(api, w, types, done, s0, s, run, s1);
  }

  lemma LogWritten(api: Api, w: Writes, types: seq<string>, done: seq<Run>, s0: Snap, s: Snap, run: Run, s1: Snap)
    requires LogOutput(api, w, types, done, s0, s)
    requires LogNext(api, w, s0, s, run, s1)
    ensures Mapped(api, done + [run])
    ensures s1.written == s0.written + RunRows(w, api, done + [run])
  {
    MappedSnoc(api, done, run);
    WrittenStep(w, api, s0.written, done, run, s.written, s1.written);
  }

  lemma LogRequests(api: Api, w: Writes, types: seq<string>, done: seq<Run>, s0: Snap, s: Snap, run: Run, s1: Snap)
    requires LogOutput(api, w, types, done, s0, s)
    requires Recorded(api, w, Unpaged(QueryOf(s0.options)), run, s, s1)
    ensures Mapped(api, done + [run])
    ensures s1.requests == s0.requests + CountRequests(api, QueryOf(s0.options), types)
      + RunRequests(api, Unpaged(QueryOf(s0.options)), done + [run])
  {
    var q := Unpaged(QueryOf(s0.options));
    MappedSnoc(api, done, run);
    RequestsStep(api, q, s0.requests + CountRequests(api, QueryOf(s0.options), types), done, run, s.requests, s1.requests);
  }

  lemma RequestsStep(api: Api, q: Query, r0: seq<Request>, done: seq<Run>, run: Run, r: seq<Request>, r1: seq<Request>)
    requires Mapped(api, done + [run])
    requires r == r0 + RunRequests(api, q, done)
    requires r1 == r + PageRequests(api.names[run.resourceType], q, if run.halt.stopped then run.halt.pages else run.halt.pages + 1)
    ensures r1 == r0 + RunRequests(api, q, done + [run])
  {
    assert (done + [run])[..|done|] == done;
    AppendLog(r0, r, r1, RunRequests(api, q, done),
      PageRequests(api.names[run.resourceType], q, if run.halt.stopped then run.halt.pages else run.halt.pages + 1));
  }

  lemma WrittenStep(w: Writes, api: Api, log0: seq<Fields>, done: seq<Run>, run: Run, log: seq<Fields>, log1: seq<Fields>)
    requires Mapped(api, done + [run])
    requires log == log0 + RunRows(w, api, done)
    requires log1 == log + Rows(w, Visited(RunPages(api, run), run.halt.pages))
    ensures log1 == log0 + RunRows(w, api, done + [run])
  {
    assert (done + [run])[..|done|] == done;
    AppendLog(log0, log, log1, RunRows(w, api, done), Rows(w, Visited(RunPages(api, run), run.halt.pages)));
  }

  /** One turn of the driver's loop, for where it stands: the type at `i`
      is run from the stop poll of `s`. */
  lemma RunsStep(api: Api, stops: seq<bool>, types: seq<string>, i: nat, done: seq<Run>, s0: Snap, s: Snap, h: Halt, s1: Snap)
    requires DriverRuns(api, stops, types, i, done, s0, s)
    requires i < |types| && types[i] in api.names && !s.jobIsStopped
    requires h == HaltFrom(api.pages(api.names[types[i]]), stops, s.polls, 0)
    requires s1.polls == s.polls + h.pages + 1 && s1.jobIsStopped == h.stopped
    ensures DriverRuns(api, stops, types, i + 1, done + [Run(types[i], h)], s0, s1)
  {
    if h.stopped {
      RunsStepStopped(api, stops, types, i, done, s0, s, h, s1);
    } else {
      RunsStepGoOn(api, stops, types, i, done, s0, s, h, s1);
    }
  }

  /** A turn whose page loop was stopped: it is the last run. */
  lemma RunsStepStopped(api: Api, stops: seq<bool>, types: seq<string>, i: nat, done: seq<Run>, s0: Snap, s: Snap, h: Halt, s1: Snap)
    requires DriverRuns(api, stops, types, i, done, s0, s)
    requires i < |types| && types[i] in api.names && !s.jobIsStopped
    requires h == HaltFrom(api.pages(api.names[types[i]]), stops, s.polls, 0) && h.stopped
    requires s1.polls == s.polls + h.pages + 1 && s1.jobIsStopped
    ensures DriverRuns(api, stops, types, i + 1, done + [Run(types[i], h)], s0, s1)
  {
    RunsStop(api, stops, types, i, done, s0.polls, s.polls, h);
    StateStop(i, |types|, s0.jobIsStopped, done,
              Runs(api, stops, types, 0, s0.polls), Runs(api, stops, types, i, s.polls), Run(types[i], h),
              Runs(api, stops, types, i + 1, s1.polls), Throws(api, stops, types, 0, s0.polls),
              Throws(api, stops, types, i, s.polls), Throws(api, stops, types, i + 1, s1.polls));
  }

  /** A turn whose page loop ran out: the driver goes on from the next type. */
  lemma {:induction false} RunsStepGoOn(api: Api, stops: seq<bool>, types: seq<string>, i: nat, done: seq<Run>, s0: Snap, s: Snap, h: Halt, s1: Snap)
    requires DriverRuns(api, stops, types, i, done, s0, s)
    requires i < |types| && types[i] in api.names && !s.jobIsStopped
    requires h == HaltFrom(api.pages(api.names[types[i]]), stops, s.polls, 0) && !h.stopped
    requires s1.polls == s.polls + h.pages + 1 && !s1.jobIsStopped
    ensures DriverRuns(api, stops, types, i + 1, done + [Run(types[i], h)], s0, s1)
  {
    var all := Runs(api, stops, types, 0, s0.polls);
    var rest1 := Runs(api, stops, types, i + 1, s1.polls);
    var throwsNext := Throws(api, stops, types, i + 1, s1.polls);
    RunsGoOn(api, stops, types, i, done, s0.polls, s.polls, h);
    ThrowsGoOn(api, stops, types, i, s0.polls, s.polls, h);
    assert all == done + [Run(types[i], h)] + rest1;
    assert Throws(api, stops, types, 0, s0.polls) <==> throwsNext;
    StateGoOn(i, |types|, s0.jobIsStopped, done, all, Runs(api, stops, types, i, s.polls), Run(types[i], h),
              rest1, Throws(api, stops, types, 0, s0.polls), Throws(api, stops, types, i, s.polls), throwsNext);
  }

  /** The driver throws at type `i`, which has no API resource. */
  lemma DriverThrows(api: Api, stops: seq<bool>, fieldNames: seq<string>, metadata: (Resource, string) -> seq<string>,
                     types: seq<string>, i: nat, done: seq<Run>, s0: Snap, s: Snap)
    requires types == ResourceTypesOf(s0.options) && !NothingToExport(Counts(api, types))
    requires DriverAt(api, stops, WritesOf(ExtractionOf(s0.options, fieldNames, metadata)), types, i, done, s0, s)
    requires i < |types| && types[i] !in api.names && !s.jobIsStopped
    ensures Exported(api, stops, fieldNames, metadata, s0, s, false)
  {
    assert Runs(api, stops, types, i, s.polls) == [];
    assert done + [] == done;
    assert Throws(api, stops, types, 0, s0.polls);
    Finish(api, stops, fieldNames, metadata, types, done, s0, s, false);
  }

  /** The driver's loop ends: all types were run, or the job is stopped. */
  lemma DriverEnd(api: Api, stops: seq<bool>, fieldNames: seq<string>, metadata: (Resource, string) -> seq<string>,
                  types: seq<string>, i: nat, done: seq<Run>, s0: Snap, s: Snap)
    requires types == ResourceTypesOf(s0.options) && !NothingToExport(Counts(api, types))
    requires DriverAt(api, stops, WritesOf(ExtractionOf(s0.options, fieldNames, metadata)), types, i, done, s0, s)
    requires i == |types| || s.jobIsStopped
    ensures Exported(api, stops, fieldNames, metadata, s0, s, true)
  {
    var all := Runs(api, stops, types, 0, s0.polls);
    var rest := Runs(api, stops, types, i, s.polls);
    if !s.jobIsStopped {
      assert rest == [];
      assert !Throws(api, stops, types, i, s.polls);
    }
    StateEnd(i, |types|, s0.jobIsStopped, s.jobIsStopped, done, all, rest,
             Throws(api, stops, types, 0, s0.polls), Throws(api, stops, types, i, s.polls));
    Finish(api, stops, fieldNames, metadata, types, done, s0, s, true);
  }

  /** The loop ends stopped, or with nothing left to run and nothing to
      throw: what has run is the whole export, and nothing throws. */
  lemma StateEnd(i: nat, n: nat, stopped0: bool, stopped: bool, done: seq<Run>,
                 all: seq<Run>, rest: seq<Run>, throws0: bool, throwsAt: bool)
    requires RunsState(i, n, stopped0, stopped, done, all, rest, throws0, throwsAt)
    requires stopped || (rest == [] && !throwsAt)
    ensures stopped0 ==> done == [] && stopped
    ensures !stopped0 ==> all == done && !throws0
    ensures stopped == (stopped0 || (done != [] && done[|done| - 1].halt.stopped))
  {
    if !stopped {
      assert done + [] == done;
    }
  }

  // ---------------------------------------------------------------------------
  // The writer

  class Writer {
    var options: Options
    /** `getParams()`: the parameters of the export. */
    const params: Options
    /** `parse_str`. */
    const parse: string -> Query
    /** What `prepareFieldNames` produced. */
    const fieldNames: seq<string>
    /** `stringMetadata`. */
    const metadata: (Resource, string) -> seq<string>
    const api: Api
    /** The successive answers of the job's stop check; later calls answer false. */
    const stops: seq<bool>
    /** How many times `shouldStop()` was called. */
    var polls: nat
    var jobIsStopped: bool
    /** The totals of the selected types. */
    var totals: Assoc<string, int>
    /** The process counters, per resource type. */
    var process: Assoc<string, Stats>
    /** The searches sent to the API, in order. */
    ghost var requests: seq<Request>
    /** The rows passed to `writeFields`, in order. */
    ghost var written: seq<Fields>

    constructor (params: Options, parse: string -> Query, fieldNames: seq<string>,
                 metadata: (Resource, string) -> seq<string>, api: Api, stops: seq<bool>)
      ensures this.params == params && this.parse == parse && this.fieldNames == fieldNames
      ensures this.metadata == metadata && this.api == api && this.stops == stops
      ensures options == Defaults() && polls == 0 && !jobIsStopped
      ensures totals == Empty() && process == Empty()
      ensures requests == [] && written == []
    {
      this.params := params;
      this.parse := parse;
      this.fieldNames := fieldNames;
      this.metadata := metadata;
      this.api := api;
      this.stops := stops;
      options := Defaults();
      polls := 0;
      jobIsStopped := false;
      totals := Empty();
      process := Empty();
      requests := [];
      written := [];
    }

    method InitializeParams()
      modifies this`options
      ensures options == Normalized(params, old(options), parse)
    {
      options := Union(params, options);
      if !NamesIdentifier(Lookup(options, FormatResource, Null)) {
        options := Put(options, FormatResourceProperty, Null);
      }
      var query := Lookup(options, QueryOption, Null);
      if !IsArray(query) {
        options := Put(options, QueryOption, QueryValue(parse(StringOf(query))));
      }
    }

    /** One count search per selected type that has an API resource. */
    method CountResources() returns (result: Assoc<string, int>)
      modifies this`requests
      ensures result == Counts(api, ResourceTypesOf(options))
      ensures requests == old(requests) + CountRequests(api, QueryOf(options), ResourceTypesOf(options))
    {
      result := Empty();
      var query := CountQuery(QueryOf(options));
      var types := ResourceTypesOf(options);
      ghost var r0 := requests;
      for i := 0 to |types|
        invariant result == Counts(api, types[..i])
        invariant requests == r0 + CountRequests(api, QueryOf(options), types[..i])
      {
        CountStep(api, types, i, result);
        CountRequestStep(api, QueryOf(options), types, i, requests, r0);
        var t := types[i];
        if t in api.names {
          requests := requests + [Request(api.names[t], query)];
          result := Put(result, t, api.totals(api.names[t]));
        } else {
          result := Put(result, t, 0);
        }
      }
      PrefixAll(types);
    }

    method GetDataResource(r: Resource) returns (data: Row)
      ensures data == DataResource(ExtractionOf(options, fieldNames, metadata), r)
    {
      ghost var x := ExtractionOf(options, fieldNames, metadata);
      data := Empty();
      var removeEmpty := !Truthy(Lookup(options, EmptyFields, Null));
      for i := 0 to |fieldNames|
        invariant data == DataOf(x, r, fieldNames[..i])
      {
        PrefixNext(fieldNames, i);
        var fieldName := fieldNames[i];
        var values := metadata(r, fieldName);
        if removeEmpty {
          values := NonEmpty(values);
          if |values| == 0 {
            continue;
          }
        }
        if fieldName in data.keys {
          data := Put(data, fieldName, data.vals[fieldName] + values);
        } else {
          data := Put(data, fieldName, values);
        }
      }
      PrefixAll(fieldNames);
    }

    method ShouldStop() returns (stop: bool)
      modifies this`polls
      ensures stop == StopAt(stops, old(polls)) && polls == old(polls) + 1
    {
      stop := polls < |stops| && stops[polls];
      polls := polls + 1;
    }

    /** The resources of one page, after the resources `done` of the earlier pages. */
    method ProcessPage(page: seq<Resource>, ghost w: Writes, stats0: Stats) returns (stats: Stats)
      requires w == WritesOf(ExtractionOf(options, fieldNames, metadata))
      modifies this`written
      ensures written == old(written) + Rows(w, page)
      ensures stats.total == stats0.total && stats.processed == stats0.processed + |page|
      ensures stats.succeed == stats0.succeed + |Rows(w, page)| && stats.skipped + |Rows(w, page)| == stats0.skipped + |page|
    {
      stats := stats0;
      ghost var w0 := written;
      for i := 0 to |page|
        invariant written == w0 + Rows(w, page[..i])
        invariant stats.total == stats0.total && stats.processed == stats0.processed + i
        invariant stats.succeed == stats0.succeed + |Rows(w, page[..i])| && stats.skipped + |Rows(w, page[..i])| == stats0.skipped + i
      {
        PrefixNext(page, i);
        TallyNext(w, 0, page[..i], page[i]);
        stats := ProcessResource(page[i], w, stats);
      }
      PrefixAll(page);
    }

    /** One resource: its map is written and counted as succeeded when it
        has content, and counted as skipped otherwise. */
    method ProcessResource(r: Resource, ghost w: Writes, stats0: Stats) returns (stats: Stats)
      requires w == WritesOf(ExtractionOf(options, fieldNames, metadata))
      modifies this`written
      ensures written == old(written) + RowOf(w, r)
      ensures stats.total == stats0.total && stats.processed == stats0.processed + 1
      ensures stats.succeed == stats0.succeed + |RowOf(w, r)| && stats.skipped + |RowOf(w, r)| == stats0.skipped + 1
    {
      var data := GetDataResource(r);
      if HasContent(data) {
        written := written + [data];
        stats := stats0.(processed := stats0.processed + 1, succeed := stats0.succeed + 1);
      } else {
        stats := stats0.(processed := stats0.processed + 1, skipped := stats0.skipped + 1);
      }
    }

    /** The writer's state, as a value. */
    ghost function Now(): Snap
      reads this
    {
      Snap(options, polls, jobIsStopped, totals, process, requests, written)
    }

    /** `appendResources()`: the totals are counted first; when some type is
        selected and some resource is to be exported, the selected types are
        started in turn until one is stopped. `ok` is false when the driver
        reached a type without an API resource, where the export throws. */
    method AppendResources() returns (ok: bool)
      modifies this`options, this`polls, this`jobIsStopped, this`totals, this`process, this`requests, this`written
      ensures Exported(api, stops, fieldNames, metadata, old(Now()), Now(), ok)
    {
      ghost var s0 := Now();
      ghost var w := WritesOf(ExtractionOf(options, fieldNames, metadata));
      process := Empty();
      var counted := CountResources();
      totals := counted;
      var types := ResourceTypesOf(options);
      assert Now() == Counted0(api, types, s0);
      if totals.keys == [] || Sum(Values(totals)) == 0 {
        // No resource type selected, or no resource to export.
        NothingEnd(api, stops, fieldNames, metadata, s0);
        return true;
      }
      ok := StartTypes(types, w, s0);
    }

    /** The driver's loop over the selected types, once they are counted and
        some resource is to be exported. */
    method StartTypes(types: seq<string>, ghost w: Writes, ghost s0: Snap) returns (ok: bool)
      requires types == ResourceTypesOf(s0.options) && w == WritesOf(ExtractionOf(s0.options, fieldNames, metadata))
      requires !NothingToExport(Counts(api, types)) && Now() == Counted0(api, types, s0)
      modifies this`options, this`polls, this`jobIsStopped, this`process, this`requests, this`written
      ensures Exported(api, stops, fieldNames, metadata, s0, Now(), ok)
    {
      DriverStart(api, stops, w, types, s0);
      ghost var done;
      var i;
      i, done := RunTypes(types, w, s0);
      if i < |types| && !jobIsStopped {
        DriverThrows(api, stops, fieldNames, metadata, types, i, done, s0, Now());
        return false;
      }
      DriverEnd(api, stops, fieldNames, metadata, types, i, done, s0, Now());
      ok := true;
    }

    /** The loop of `appendResources()` over the selected types: it breaks
        when the job is stopped, and stops at a type without an API resource,
        where the export throws. */
    method RunTypes(types: seq<string>, ghost w: Writes, ghost s0: Snap) returns (i: nat, ghost done: seq<Run>)
      requires w == WritesOf(ExtractionOf(s0.options, fieldNames, metadata))
      requires DriverAt(api, stops, w, types, 0, [], s0, Now())
      modifies this`options, this`polls, this`jobIsStopped, this`process, this`requests, this`written
      ensures DriverAt(api, stops, w, types, i, done, s0, Now())
      ensures i <= |types| && (i < |types| ==> jobIsStopped || types[i] !in api.names)
    {
      done := [];
      i := 0;
      while i < |types| && !jobIsStopped && types[i] in api.names
        invariant DriverAt(api, stops, w, types, i, done, s0, Now())
        decreases |types| - i
      {
        done := StartType(types, i, done, w, s0);
        i := i + 1;
      }
    }

    /** One turn of the driver's loop: the `i`-th type has an API resource
        and the job is not stopped, so the type is run. */
    method StartType(types: seq<string>, i: nat, ghost done: seq<Run>, ghost w: Writes, ghost s0: Snap)
      returns (ghost done2: seq<Run>)
      requires w == WritesOf(ExtractionOf(s0.options, fieldNames, metadata))
      requires DriverAt(api, stops, w, types, i, done, s0, Now())
      requires i < |types| && types[i] in api.names && !jobIsStopped
      modifies this`options, this`polls, this`jobIsStopped, this`process, this`requests, this`written
      ensures DriverAt(api, stops, w, types, i + 1, done2, s0, Now())
    {
      ghost var s := Now();
      var h := AppendForType(types[i]);
      DriverStep(api, stops, fieldNames, metadata, w, types, i, done, s0, s, h, Now());
      done2 := done + [Run(types[i], h)];
    }

    /** `appendResourcesForResourceType` for a type with an API resource:
        the counters of the type start at 0, the paging keys are unset from
        the query, and pages of 100 are read at offsets 0, 100, 200, … until
        the stop signal is seen at the top of a page or a page comes back
        empty. */
    method AppendForType(t: string) returns (ghost h: Halt)
      requires t in api.names
      modifies this`options, this`polls, this`jobIsStopped, this`process, this`requests, this`written
      ensures TypeRan(api, stops, fieldNames, metadata, t, old(Now()), h, Now())
    {
      var name := api.names[t];
      var unpaged := UnsetPaging();
      QueryUpdateKeeps(old(options), unpaged, fieldNames, metadata);
      assert polls == old(polls) && requests == old(requests) && written == old(written) && jobIsStopped == old(jobIsStopped);
      // The counters start at 0 and are updated through a reference in the
      // loop; they are stored when the loop ends.
      var stats;
      ghost var w := WritesOf(ExtractionOf(options, fieldNames, metadata));
      ghost var p0 := Paged();
      stats, h := PageLoop(name, unpaged, Lookup(totals, t, 0), w, p0);
      process := Put(process, t, stats);
      LoopRecorded(api, w, unpaged, t, h, stats, p0, Paged(), old(Now()), Now());
    }

    /** `unset` of the query's `page` and `per_page`. */
    method UnsetPaging() returns (query: Query)
      modifies this`options
      ensures query == Unpaged(QueryOf(old(options)))
      ensures options == Put(old(options), QueryOption, QueryValue(query))
    {
      query := Unpaged(QueryOf(options));
      options := Put(options, QueryOption, QueryValue(query));
    }

    /** The page loop's part of the state. */
    ghost function Paged(): Paging
      reads this
    {
      Paging(polls, jobIsStopped, requests, written)
    }

    /** The `do … while (true)` loop over the pages of one API resource. */
    method PageLoop(name: string, query: Query, total: int, ghost w: Writes, ghost p0: Paging) returns (stats: Stats, ghost h: Halt)
      requires w == WritesOf(ExtractionOf(options, fieldNames, metadata)) && p0 == Paged()
      modifies this`polls, this`jobIsStopped, this`requests, this`written
      ensures LoopDone(name, query, total, w, p0, stats, h, Paged())
    {
      var pages := api.pages(name);
      h := HaltFrom(pages, stops, polls, 0);
      stats := Stats(total, 0, 0, 0);
      LoopStarts(name, query, total, pages, w, p0, stats, h);
      stats := Pages(name, query, total, pages, w, p0, stats, h);
    }

    /** The turns of the page loop, from the top of page 0. */
    method Pages(name: string, query: Query, total: int, pages: seq<seq<Resource>>,
                 ghost w: Writes, ghost p0: Paging, stats0: Stats, ghost h: Halt) returns (stats: Stats)
      requires pages == api.pages(name) && w == WritesOf(ExtractionOf(options, fieldNames, metadata))
      requires LoopAt(name, query, total, pages, 0, w, p0, stats0, h, Paged())
      modifies this`polls, this`jobIsStopped, this`requests, this`written
      ensures LoopDone(name, query, total, w, p0, stats, h, Paged())
    {
      var offset := 0;
      var k := 0;
      stats := stats0;
      while true
        invariant offset == SqlLimit * k && LoopAt(name, query, total, pages, k, w, p0, stats, h, Paged())
        decreases |pages| - k
      {
        var more;
        stats, more, k := LoopTurn(name, query, total, pages, k, offset, w, p0, stats, h);
        if !more {
          break;
        }
        offset := offset + SqlLimit;
      }
    }

    /** One turn of the page loop, seen from the loop: it either leaves the
        loop at the top of the next page or ends it as `h` says. */
    method LoopTurn(name: string, query: Query, total: int, pages: seq<seq<Resource>>, k: nat, offset: int,
                    ghost w: Writes, ghost p0: Paging, stats0: Stats, ghost h: Halt) returns (stats: Stats, more: bool, k1: nat)
      requires pages == api.pages(name) && w == WritesOf(ExtractionOf(options, fieldNames, metadata)) && offset == SqlLimit * k
      requires LoopAt(name, query, total, pages, k, w, p0, stats0, h, Paged())
      modifies this`polls, this`jobIsStopped, this`requests, this`written
      ensures more ==> k1 == k + 1 && LoopAt(name, query, total, pages, k1, w, p0, stats, h, Paged())
      ensures !more ==> k1 == k && LoopDone(name, query, total, w, p0, stats, h, Paged())
    {
      stats, more := NextPage(name, query, total, pages, k, offset, w, p0, stats0);
      k1 := if more then k + 1 else k;
      if more {
        LoopGoesOn(name, query, total, pages, k, w, p0, stats, h, Paged());
      } else {
        LoopEnds(name, query, total, k, w, p0, stats, h, Paged());
      }
    }

    /** The page loop starts at the top of page 0, with no counters, rows
        or searches yet. */
    lemma LoopStarts(name: string, query: Query, total: int, pages: seq<seq<Resource>>,
                     w: Writes, p0: Paging, stats: Stats, h: Halt)
      requires stats == Stats(total, 0, 0, 0) && h == HaltFrom(pages, stops, p0.polls, 0)
      ensures LoopAt(name, query, total, pages, 0, w, p0, stats, h, p0)
    {
      assert p0.written + [] == p0.written && p0.requests + [] == p0.requests;
    }

    /** A turn of the page loop that goes on leaves it at the top of the
        next page, still bound to end as `h` says. */
    lemma LoopGoesOn(name: string, query: Query, total: int, pages: seq<seq<Resource>>, k: nat,
                     w: Writes, p0: Paging, stats: Stats, h: Halt, p: Paging)
      requires k <= |pages| && AfterPage(name, query, total, pages, k, w, p0, stats, true, p)
      requires HaltFrom(pages, stops, p0.polls, k) == h && h == HaltFrom(pages, stops, p0.polls, 0)
      ensures LoopAt(name, query, total, pages, k + 1, w, p0, stats, h, p)
    {
    }

    /** A turn of the page loop that ends it leaves it as `h` says. */
    lemma LoopEnds(name: string, query: Query, total: int, k: nat, w: Writes, p0: Paging,
                   stats: Stats, h: Halt, p: Paging)
      requires k <= |api.pages(name)| && EndedAt(name, query, total, api.pages(name), k, w, p0, stats, p)
      requires HaltFrom(api.pages(name), stops, p0.polls, k) == h && h == HaltFrom(api.pages(name), stops, p0.polls, 0)
      ensures LoopDone(name, query, total, w, p0, stats, h, p)
    {
      assert h.pages == k;
    }

    /** The page loop, started in the state `p0`, ended as `h` says in the
        state `p`: one stop poll per full page processed and one more at the
        turn that ended it, the counters and rows of the visited resources,
        and one search per full page, plus the search for the empty page when
        the loop ran out rather than stopped. */
    ghost predicate LoopDone(name: string, query: Query, total: int, w: Writes, p0: Paging,
                             stats: Stats, h: Halt, p: Paging)
    {
      var pages := api.pages(name);
      && h == HaltFrom(pages, stops, p0.polls, 0)
      && p.polls == p0.polls + h.pages + 1
      && p.jobIsStopped == (p0.jobIsStopped || h.stopped)
      && stats == Tally(w, total, Visited(pages, h.pages))
      && p.written == p0.written + Rows(w, Visited(pages, h.pages))
      && p.requests == p0.requests + PageRequests(name, query, if h.stopped then h.pages else h.pages + 1)
    }

    /** The page loop at the top of page `k`, bound to end as `h` says. */
    ghost predicate LoopAt(name: string, query: Query, total: int, pages: seq<seq<Resource>>, k: nat,
                           w: Writes, p0: Paging, stats: Stats, h: Halt, p: Paging)
    {
      && AtPage(name, query, total, pages, k, w, p0, stats, p)
      && HaltFrom(pages, stops, p0.polls, k) == h && h == HaltFrom(pages, stops, p0.polls, 0)
    }

    /** The state `p` of the page loop at the top of page `k`, when it was
        started in the state `p0`. */
    ghost predicate AtPage(name: string, query: Query, total: int, pages: seq<seq<Resource>>, k: nat,
                           w: Writes, p0: Paging, stats: Stats, p: Paging)
    {
      && k <= |pages| && p.polls == p0.polls + k && p.jobIsStopped == p0.jobIsStopped
      && Counted(w, total, pages, k, stats) && p.written == p0.written + PageRows(w, pages, k)
      && p.requests == p0.requests + PageRequests(name, query, k)
    }

    /** The state `p` of the page loop once no stop signal was seen at the top
        of page `k` and the search for the page was logged. */
    ghost predicate Polled(name: string, query: Query, total: int, pages: seq<seq<Resource>>, k: nat,
                           w: Writes, p0: Paging, stats: Stats, p: Paging)
    {
      && k <= |pages| && !StopAt(stops, p0.polls + k)
      && p.polls == p0.polls + k + 1 && p.jobIsStopped == p0.jobIsStopped
      && Counted(w, total, pages, k, stats) && p.written == p0.written + PageRows(w, pages, k)
      && p.requests == p0.requests + PageRequests(name, query, k + 1)
    }

    /** The state `p` of the page loop once it has ended at page `k`. */
    ghost predicate EndedAt(name: string, query: Query, total: int, pages: seq<seq<Resource>>, k: nat,
                            w: Writes, p0: Paging, stats: Stats, p: Paging)
      requires k <= |pages|
    {
      var h := HaltFrom(pages, stops, p0.polls, k);
      && h.pages == k && p.polls == p0.polls + k + 1
      && p.jobIsStopped == (p0.jobIsStopped || h.stopped)
      && stats == Tally(w, total, Visited(pages, k)) && p.written == p0.written + Rows(w, Visited(pages, k))
      && p.requests == p0.requests + PageRequests(name, query, if h.stopped then k else k + 1)
    }

    /** The state `p` after the turn of the loop at page `k`: either it goes
        on at the top of page `k + 1`, or it has ended at page `k`. */
    ghost predicate AfterPage(name: string, query: Query, total: int, pages: seq<seq<Resource>>, k: nat,
                              w: Writes, p0: Paging, stats: Stats, more: bool, p: Paging)
      requires k <= |pages|
    {
      if more then
        && k < |pages| && HaltFrom(pages, stops, p0.polls, k + 1) == HaltFrom(pages, stops, p0.polls, k)
        && AtPage(name, query, total, pages, k + 1, w, p0, stats, p)
      else EndedAt(name, query, total, pages, k, w, p0, stats, p)
    }

    /** One turn of the page loop at page `k`: it ends the loop when the
        stop signal is seen or the page is empty, and otherwise processes
        the page and goes on with page `k + 1`. */
    method NextPage(name: string, query: Query, total: int, pages: seq<seq<Resource>>, k: nat, offset: int,
                    ghost w: Writes, ghost p0: Paging, stats0: Stats) returns (stats: Stats, more: bool)
      requires w == WritesOf(ExtractionOf(options, fieldNames, metadata)) && offset == SqlLimit * k
      requires AtPage(name, query, total, pages, k, w, p0, stats0, Paged())
      modifies this`polls, this`jobIsStopped, this`requests, this`written
      ensures k <= |pages| && AfterPage(name, query, total, pages, k, w, p0, stats, more, Paged())
    {
      var stop := PollPage(name, query, total, pages, k, offset, w, p0, stats0);
      if stop {
        return stats0, false;
      }
      stats, more := FetchPage(name, query, total, pages, k, w, p0, stats0);
    }

    /** The rest of the turn at page `k` once no stop signal was seen and the
        search was logged: an empty page ends the loop, and any other page is
        processed. */
    method FetchPage(name: string, query: Query, total: int, pages: seq<seq<Resource>>, k: nat,
                     ghost w: Writes, ghost p0: Paging, stats0: Stats) returns (stats: Stats, more: bool)
      requires w == WritesOf(ExtractionOf(options, fieldNames, metadata))
      requires Polled(name, query, total, pages, k, w, p0, stats0, Paged())
      modifies this`written
      ensures AfterPage(name, query, total, pages, k, w, p0, stats, more, Paged())
    {
      var page := PageAt(pages, k);
      if |page| == 0 {
        EndOnEmpty(name, query, total, pages, k, w, p0, stats0, Paged());
        return stats0, false;
      }
      ghost var p := Paged();
      stats := ProcessPage(page, w, stats0);
      GoOn(name, query, total, pages, k, w, p0, stats0, stats, p, Paged());
      more := true;
    }

    /** The top of page `k`: poll the stop signal, and unless it is seen,
        log the search for the page at `offset`. When it is seen, the job
        is stopped and the loop ends there. */
    method PollPage(name: string, query: Query, total: int, pages: seq<seq<Resource>>, k: nat, offset: int,
                    ghost w: Writes, ghost p0: Paging, ghost stats: Stats) returns (stop: bool)
      requires offset == SqlLimit * k && AtPage(name, query, total, pages, k, w, p0, stats, Paged())
      modifies this`polls, this`jobIsStopped, this`requests
      ensures stop ==> AfterPage(name, query, total, pages, k, w, p0, stats, false, Paged())
      ensures !stop ==> Polled(name, query, total, pages, k, w, p0, stats, Paged())
    {
      ghost var p := Paged();
      stop := ShouldStop();
      if stop {
        jobIsStopped := true;
        EndOnStop(name, query, total, pages, k, w, p0, stats, p, Paged());
        return;
      }
      requests := requests + [Request(name, PageQuery(offset, query))];
      LogSearch(name, query, total, pages, k, w, p0, stats, p, Paged());
    }

    /** The stop signal seen at the top of page `k` ends the loop there. */
    lemma EndOnStop(name: string, query: Query, total: int, pages: seq<seq<Resource>>, k: nat,
                    w: Writes, p0: Paging, stats: Stats, p: Paging, p1: Paging)
      requires AtPage(name, query, total, pages, k, w, p0, stats, p) && StopAt(stops, p0.polls + k)
      requires p1 == p.(polls := p.polls + 1, jobIsStopped := true)
      ensures AfterPage(name, query, total, pages, k, w, p0, stats, false, p1)
    {
      HaltStep(pages, stops, p0.polls, k);
      CountedTally(w, total, pages, k, stats);
    }

    /** No stop signal at the top of page `k`: the search for the page is
        logged, at offset 100 * `k`. */
    lemma LogSearch(name: string, query: Query, total: int, pages: seq<seq<Resource>>, k: nat,
                    w: Writes, p0: Paging, stats: Stats, p: Paging, p1: Paging)
      requires AtPage(name, query, total, pages, k, w, p0, stats, p) && !StopAt(stops, p0.polls + k)
      requires p1 == p.(polls := p.polls + 1, requests := p.requests + [Request(name, PageQuery(SqlLimit * k, query))])
      ensures Polled(name, query, total, pages, k, w, p0, stats, p1)
    {
      RequestsNext(p0.requests, name, query, k);
    }

    /** An empty page `k`, asked for after no stop signal, ends the loop there. */
    lemma EndOnEmpty(name: string, query: Query, total: int, pages: seq<seq<Resource>>, k: nat,
                     w: Writes, p0: Paging, stats: Stats, p: Paging)
      requires Polled(name, query, total, pages, k, w, p0, stats, p) && PageAt(pages, k) == []
      ensures AfterPage(name, query, total, pages, k, w, p0, stats, false, p)
    {
      HaltStep(pages, stops, p0.polls, k);
      CountedTally(w, total, pages, k, stats);
    }

    /** A non-empty page `k`, asked for after no stop signal and processed,
        leaves the loop at the top of page `k + 1`. */
    lemma GoOn(name: string, query: Query, total: int, pages: seq<seq<Resource>>, k: nat,
               w: Writes, p0: Paging, stats0: Stats, stats: Stats, p: Paging, p1: Paging)
      requires Polled(name, query, total, pages, k, w, p0, stats0, p) && PageAt(pages, k) != []
      requires p1 == p.(written := p.written + Rows(w, PageAt(pages, k)))
      requires stats.total == stats0.total && stats.processed == stats0.processed + |PageAt(pages, k)|
      requires stats.succeed == stats0.succeed + |Rows(w, PageAt(pages, k))|
      requires stats.skipped + |Rows(w, PageAt(pages, k))| == stats0.skipped + |PageAt(pages, k)|
      ensures AfterPage(name, query, total, pages, k, w, p0, stats, true, p1)
    {
      HaltStep(pages, stops, p0.polls, k);
      assert Continues(pages, stops, p0.polls, k);
      CountedNext(w, total, pages, k, stats0, stats);
      assert AtPage(name, query, total, pages, k + 1, w, p0, stats, p1);
    }
  }

  /** The shape of the runs `runs` from the `i`-th type: the types are
      started in their order; none is started after one was stopped; and
      the driver goes on to the next type unless the current one was stopped
      or the next has no API resource. */
  ghost predicate RunsShape(api: Api, types: seq<string>, i: nat, runs: seq<Run>) {
    && i + |runs| <= |types|
    && (forall j | 0 <= j < |runs| :: runs[j].resourceType == types[i + j] && types[i + j] in api.names)
    && (forall j | 0 <= j < |runs| - 1 :: !runs[j].halt.stopped)
    && (i + |runs| < |types| && (runs == [] || !runs[|runs| - 1].halt.stopped) ==> types[i + |runs|] !in api.names)
  }

  /** The runs from the `i`-th type on have the shape `RunsShape`. */
  lemma {:induction false} RunsSpec(api: Api, stops: seq<bool>, types: seq<string>, i: nat, poll: nat)
    requires i <= |types|
    ensures RunsShape(api, types, i, Runs(api, stops, types, i, poll))
    decreases |types| - i
  {
    if i < |types| && types[i] in api.names {
      var h := HaltFrom(api.pages(api.names[types[i]]), stops, poll, 0);
      if h.stopped {
        assert Runs(api, stops, types, i, poll) == [Run(types[i], h)] + [];
        ShapeLast(api, types, i, Run(types[i], h));
      } else {
        RunsSpec(api, stops, types, i + 1, poll + h.pages + 1);
        RunsUnfold(api, stops, types, i, poll, h);
        ShapeCons(api, types, i, Run(types[i], h), Runs(api, stops, types, i + 1, poll + h.pages + 1));
      }
    }
  }

  /** A run that was not stopped, of the `i`-th type, followed by runs of
      the right shape from the next type. */
  lemma ShapeCons(api: Api, types: seq<string>, i: nat, run: Run, rest: seq<Run>)
    requires i < |types| && run.resourceType == types[i] && types[i] in api.names && !run.halt.stopped
    requires RunsShape(api, types, i + 1, rest)
    ensures RunsShape(api, types, i, [run] + rest)
  {
    var runs := [run] + rest;
    assert forall j | 1 <= j < |runs| :: runs[j] == rest[j - 1];
    assert runs[0] == run;
  }

  /** A run that was stopped, of the `i`-th type, on its own. */
  lemma ShapeLast(api: Api, types: seq<string>, i: nat, run: Run)
    requires i < |types| && run.resourceType == types[i] && types[i] in api.names && run.halt.stopped
    ensures RunsShape(api, types, i, [run])
  {
  }

  /** The driver throws exactly when it is not stopped before the types run
      out and the type it stops at has no API resource. */
  lemma {:induction false} ThrowsSpec(api: Api, stops: seq<bool>, types: seq<string>, i: nat, poll: nat)
    ensures var runs := Runs(api, stops, types, i, poll);
      Throws(api, stops, types, i, poll) <==> i + |runs| < |types| && (runs == [] || !runs[|runs| - 1].halt.stopped)
    decreases |types| - i
  {
    if i < |types| && types[i] in api.names {
      var h := HaltFrom(api.pages(api.names[types[i]]), stops, poll, 0);
      if h.stopped {
        assert Runs(api, stops, types, i, poll) == [Run(types[i], h)] + [];
      } else {
        ThrowsSpec(api, stops, types, i + 1, poll + h.pages + 1);
        RunsUnfold(api, stops, types, i, poll, h);
      }
    }
  }
}
