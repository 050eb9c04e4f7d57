/** What the export core reads from a resource representation (an item, an
    item set or a media), and the keys and cells of the rows it writes. */
module Resources {
  import opened OrderedMap

  datatype Option<+T> = None | Some(value: T)

  /** A key of an output row or header: one of the ten structural columns,
      or any other key, which is the term of a property ("dcterms:title"). */
  datatype Column =
    | Id               // "o:id"
    | Url              // "url"
    | ResourceType     // "resource_type"
    | ResourceClass    // "o:resource_class"
    | ItemSetTitle     // "o:item_set[dcterms:title]"
    | ItemTitle        // "o:item[dcterms:title]"
    | MediaId          // "o:media[o:id]"
    | MediaType        // "o:media[media_type]"
    | MediaSize        // "o:media[size]"
    | MediaOriginalUrl // "o:media[original_url]"
    | Term(term: PropertyTerm)

  /** The keys spelled like a structural column. */
  predicate Structural(s: string) {
    s in {"o:id", "url", "resource_type", "o:resource_class", "o:item_set[dcterms:title]",
          "o:item[dcterms:title]", "o:media[o:id]", "o:media[media_type]", "o:media[size]",
          "o:media[original_url]"}
  }

  /** Any other key: a key spelled like a structural column is that column,
      so every key is read as exactly one column. */
  type PropertyTerm = s: string | !Structural(s) witness ""

  /** The PHP array key a column stands for. */
  function Name(c: Column): string {
    match c
    case Id => "o:id"
    case Url => "url"
    case ResourceType => "resource_type"
    case ResourceClass => "o:resource_class"
    case ItemSetTitle => "o:item_set[dcterms:title]"
    case ItemTitle => "o:item[dcterms:title]"
    case MediaId => "o:media[o:id]"
    case MediaType => "o:media[media_type]"
    case MediaSize => "o:media[size]"
    case MediaOriginalUrl => "o:media[original_url]"
    case Term(t) => t
  }

  /** The column a PHP array key is read as. */
  function ColumnOf(s: string): (c: Column)
    ensures Name(c) == s
  {
    if s == "o:id" then Id
    else if s == "url" then Url
    else if s == "resource_type" then ResourceType
    else if s == "o:resource_class" then ResourceClass
    else if s == "o:item_set[dcterms:title]" then ItemSetTitle
    else if s == "o:item[dcterms:title]" then ItemTitle
    else if s == "o:media[o:id]" then MediaId
    else if s == "o:media[media_type]" then MediaType
    else if s == "o:media[size]" then MediaSize
    else if s == "o:media[original_url]" then MediaOriginalUrl
    else Term(s)
  }

  /** Keys and columns are one-to-one: reading a column's key gives the
      column back, so two columns are the same exactly when their keys are
      the same string, and columns without repetition are keys without
      repetition. */
  lemma NameInjective(a: Column, b: Column)
    ensures ColumnOf(Name(a)) == a
    ensures Name(a) == Name(b) <==> a == b
  {
  }

  /** The keys of a PHP array read as columns (`array_keys(...)`): never repeated. */
  type Terms = s: seq<Column> | Distinct(s) witness []

  /** A resource name other than the three the export knows by name. */
  type OtherName = s: string | s !in {"items", "item_sets", "media"} witness ""

  /** `$resource->resourceName()`: the API name of the resource's kind. */
  datatype Kind = Items | ItemSets | Media | OtherKind(name: OtherName)

  /** The spelling of a resource name. */
  function KindName(k: Kind): string {
    match k
    case Items => "items"
    case ItemSets => "item_sets"
    case Media => "media"
    case OtherKind(n) => n
  }

  /** Two resource names are the same exactly when they are spelled the same. */
  lemma KindNameInjective(a: Kind, b: Kind)
    ensures KindName(a) == KindName(b) <==> a == b
  {
  }

  /** One value of an output row: PHP's null, an integer or a string. */
  datatype Cell = Null | Int(n: int) | Str(s: string)

  /** A resource representation. The media accessors are only read for
      resources whose kind is Media. */
  datatype Resource = Resource(
    id: int,
    url: string,                    // url(null, true)
    kind: Kind,                     // resourceName()
    className: string,              // basename(get_class(...)) of the representation
    resourceClass: Option<string>,  // the term of the resource class, when there is one
    valueTerms: Terms,              // array_keys(values()): the terms the resource has values under
    itemUrl: string,                // item()->url() of a media
    mediaType: Cell,                // mediaType() of a media
    size: Cell,                     // size() of a media
    originalUrl: Cell               // originalUrl() of a media
  )

  /** `stringMetadata($resource, $field)`: the display strings of a field, in
      the order of the resource's values. It depends on formatting options and
      on code that is not part of this model, so it is a parameter. */
  type Stringifier = (Resource, Column) -> seq<string>

  /** `implode($sep, $parts)`. */
  function Join(sep: string, parts: seq<string>): string {
    if parts == [] then ""
    else if |parts| == 1 then parts[0]
    else Join(sep, parts[..|parts| - 1]) + sep + parts[|parts| - 1]
  }
}
