/** Request options and their translation into the API's `key:value` path segments
    (zxart/common.py). */
module Common {
  import opened Wrappers
  import opened Strings
  import Dict

  /** The API's base URL. */
  const BaseUrl: string := "https://zxart.ee/api/"

  // ---------------------------------------------------------------------------
  // Sorting

  datatype SortField = Year | Plays | Title | Place | Date | Votes | CommentsAmount

  function FieldName(f: SortField): string
  {
    match f
    case Year => "year"
    case Plays => "plays"
    case Title => "title"
    case Place => "place"
    case Date => "date"
    case Votes => "votes"
    case CommentsAmount => "commentsAmount"
  }

  function FieldFromName(name: string): Option<SortField>
  {
    if name == "year" then Some(Year)
    else if name == "plays" then Some(Plays)
    else if name == "title" then Some(Title)
    else if name == "place" then Some(Place)
    else if name == "date" then Some(Date)
    else if name == "votes" then Some(Votes)
    else if name == "commentsAmount" then Some(CommentsAmount)
    else None
  }

  datatype SortOrder = Asc | Desc | Rand

  function OrderName(o: SortOrder): string
  {
    match o
    case Asc => "asc"
    case Desc => "desc"
    case Rand => "rand"
  }

  function OrderFromName(name: string): Option<SortOrder>
  {
    if name == "asc" then Some(Asc)
    else if name == "desc" then Some(Desc)
    else if name == "rand" then Some(Rand)
    else None
  }

  /** Field and direction names read back as themselves, and field names hold no comma. */
  lemma NamesRoundTrip(f: SortField, o: SortOrder)
    ensures ',' !in FieldName(f)
    ensures FieldFromName(FieldName(f)) == Some(f)
    ensures OrderFromName(OrderName(o)) == Some(o)
  {
    match f
    case Year =>
    case Plays =>
    case Title =>
    case Place =>
    case Date =>
    case Votes =>
    case CommentsAmount =>
  }

  /** A sort field and direction; the direction defaults to descending. */
  datatype SortingSettings = SortingSettings(field: SortField, order: SortOrder := Desc)

  /** Reads back the `field,order` text of a `SortingSettings`. */
  function ParseSettings(t: string): Option<SortingSettings>
  {
    if ',' in t then
      var i := IndexOf(t, ',');
      match (FieldFromName(t[..i]), OrderFromName(t[i + 1..]))
      case (Some(f), Some(o)) => Some(SortingSettings(f, o))
      case _ => None
    else None
  }

  /** `SortingSettings.__str__`: the field name, a comma, the direction. */
  function SettingsText(s: SortingSettings): string
  {
    FieldName(s.field) + "," + OrderName(s.order)
  }

  /** The text determines the settings: it reads back as exactly them. */
  lemma SettingsRoundTrip(s: SortingSettings)
    ensures ParseSettings(SettingsText(s)) == Some(s)
  {
    NamesRoundTrip(s.field, s.order);
    var f, o := FieldName(s.field), OrderName(s.order);
    var t := SettingsText(s);
    assert t[|f|] == ',' && t[..|f|] == f && t[|f| + 1..] == o;
    assert IndexOf(t, ',') == |f|;
  }

  /** The `Sorting` presets. */
  datatype Sorting = TopRated | MostPlayed | MostRecent | TopPlaced | MostCommented

  function Preset(p: Sorting): (s: SortingSettings)
    ensures s.order == (if p == TopPlaced then Asc else Desc)
  {
    match p
    case TopRated => SortingSettings(Votes)
    case MostPlayed => SortingSettings(Plays)
    case MostRecent => SortingSettings(Date)
    case TopPlaced => SortingSettings(Place, Asc)
    case MostCommented => SortingSettings(CommentsAmount)
  }

  /** An `order` option: a preset or explicit settings. */
  datatype Sort = Named(preset: Sorting) | Custom(settings: SortingSettings)

  function SettingsOf(s: Sort): SortingSettings
  {
    match s
    case Named(p) => Preset(p)
    case Custom(c) => c
  }

  /** `str()` of an `order` option: a preset renders as its settings do. */
  function SortText(s: Sort): string
  {
    SettingsText(SettingsOf(s))
  }

  /** An `order` option's text reads back as the settings it stands for. */
  lemma SortTextRoundTrip(s: Sort)
    ensures ParseSettings(SortText(s)) == Some(SettingsOf(s))
  {
    SettingsRoundTrip(SettingsOf(s));
  }

  /** `TOP_PLACED` is the one ascending preset: it renders as `place,asc`. */
  lemma TopPlacedText()
    ensures SortText(Named(TopPlaced)) == "place,asc"
  {
    assert SortText(Named(TopPlaced)) == "place" + "," + "asc";
  }

  // ---------------------------------------------------------------------------
  // Languages and entity kinds (string enumerations)

  datatype Language = English | Russian | Spanish

  function LanguageCode(l: Language): string
  {
    match l
    case English => "eng"
    case Russian => "rus"
    case Spanish => "spa"
  }

  /** `Language(code)`: the member whose value is `code`. */
  function LanguageFromCode(code: string): Option<Language>
  {
    if code == "eng" then Some(English)
    else if code == "rus" then Some(Russian)
    else if code == "spa" then Some(Spanish)
    else None
  }

  /** Language codes identify their language. */
  lemma LanguageCodeRoundTrip(l: Language, code: string)
    ensures LanguageFromCode(LanguageCode(l)) == Some(l)
    ensures LanguageFromCode(code) == Some(l) ==> LanguageCode(l) == code
  {
  }

  datatype Entity = Author | AuthorAlias | Group | GroupAlias | Product | ProductCategory
                  | Release | Image | Tune

  function EntityName(e: Entity): string
  {
    match e
    case Author => "author"
    case AuthorAlias => "authorAlias"
    case Group => "group"
    case GroupAlias => "groupAlias"
    case Product => "zxProd"
    case ProductCategory => "zxProdCategory"
    case Release => "zxRelease"
    case Image => "zxPicture"
    case Tune => "zxMusic"
  }

  /** `Entity(name)`: the member whose value is `name`. */
  function EntityFromName(name: string): Option<Entity>
  {
    if name == "author" then Some(Author)
    else if name == "authorAlias" then Some(AuthorAlias)
    else if name == "group" then Some(Group)
    else if name == "groupAlias" then Some(GroupAlias)
    else if name == "zxProd" then Some(Product)
    else if name == "zxProdCategory" then Some(ProductCategory)
    else if name == "zxRelease" then Some(Release)
    else if name == "zxPicture" then Some(Image)
    else if name == "zxMusic" then Some(Tune)
    else None
  }

  /** Entity names identify their entity: the enumeration's values are distinct. */
  lemma EntityNameRoundTrip(e: Entity, name: string)
    ensures EntityFromName(EntityName(e)) == Some(e)
    ensures EntityFromName(name) == Some(e) ==> EntityName(e) == name
  {
    match e
    case Author =>
    case AuthorAlias =>
    case Group =>
    case GroupAlias =>
    case Product =>
    case ProductCategory =>
    case Release =>
    case Image =>
    case Tune =>
  }

  // ---------------------------------------------------------------------------
  // Option values

  /** An element of a list or tuple option value. */
  datatype Item = IStr(s: string) | IInt(i: int) | IBool(b: bool)

  /** An option value: a plain string, an integer, a `float` (carried as the text `str`
      gives it, such as `"3.5"`), a flag, a string-enumeration member (`Language`,
      `Entity`: both are `str`), an `order` setting, or a list of items. */
  datatype Value =
    | Str(s: string)
    | Int(i: int)
    | Float(text: string)
    | Bool(b: bool)
    | Lang(language: Language)
    | Kind(entity: Entity)
    | Order(sort: Sort)
    | Items(items: seq<Item>)

  function BoolText(b: bool): string { if b then "True" else "False" }

  /** `str(item)` */
  function ItemText(x: Item): string
  {
    match x
    case IStr(s) => s
    case IInt(i) => IntText(i)
    case IBool(b) => BoolText(b)
  }

  /** `repr(item)`, as it appears inside the text of a list. */
  function ItemRepr(x: Item): string
  {
    match x
    case IStr(s) => "'" + s + "'"
    case _ => ItemText(x)
  }

  function ItemTexts(xs: seq<Item>): (ts: seq<string>)
    ensures |ts| == |xs|
    ensures forall i :: 0 <= i < |xs| ==> ts[i] == ItemText(xs[i])
  {
    seq(|xs|, i requires 0 <= i < |xs| => ItemText(xs[i]))
  }

  /** `str()` of a list: the items' reprs, comma-separated, in brackets. */
  function ListRepr(xs: seq<Item>): string
  {
    "[" + Join(", ", seq(|xs|, i requires 0 <= i < |xs| => ItemRepr(xs[i]))) + "]"
  }

  /** `str(value)` (equivalently `f"{value}"`). */
  function Text(v: Value): string
  {
    match v
    case Str(s) => s
    case Int(i) => IntText(i)
    case Float(t) => t
    case Bool(b) => BoolText(b)
    case Lang(l) => LanguageCode(l)
    case Kind(e) => EntityName(e)
    case Order(s) => SortText(s)
    case Items(xs) => ListRepr(xs)
  }

  /** True of values that are `str` instances. */
  predicate IsStr(v: Value) { v.Str? || v.Lang? || v.Kind? }

  /** The text a filter carries: a non-string iterable is comma-joined element by element;
      anything else is formatted as it is. */
  function FilterValueText(v: Value): string
  {
    if v.Items? then Join(",", ItemTexts(v.items)) else Text(v)
  }

  /** `entity + wire` succeeds only for `str` values; this is the text it uses. */
  function ExportText(v: Value): Option<string>
  {
    if IsStr(v) then Some(Text(v)) else None
  }

  // ---------------------------------------------------------------------------
  // The filter table

  /** `_FILTER_MAP`: option name to its wire-format filter name. */
  const FilterMap: map<string, string> := map[
    "author_id" := "authorId",
    "compo" := "Compo",
    "format_group" := "FormatGroup",
    "format" := "Format",
    "has_inspiration" := "Inspiration",
    "has_stages" := "Stages",
    "id" := "Id",
    "min_party_place" := "MinPartyPlace",
    "min_rating" := "MinRating",
    "tags_exclude" := "TagsExclude",
    "tags_include" := "TagsInclude",
    "title" := "TitleSearch",
    "type" := "Type",
    "years" := "Year"
  ]

  /** Every wire name in the table is non-empty, and all but `authorId` start upper-case. */
  lemma FilterMapShape(k: string)
    requires k in FilterMap
    ensures |FilterMap[k]| > 0
    ensures IsUpper(FilterMap[k][0]) <==> k != "author_id"
  {
  }

  /** The request key of a filter: an upper-case wire name is scoped by the entity. */
  function FilterKey(prefix: string, wire: string): string
    requires |wire| > 0
  {
    if IsUpper(wire[0]) then prefix + wire else wire
  }

  /** True of the options whose filter needs the entity prefix. */
  predicate Prefixed(k: string)
  {
    k in FilterMap && |FilterMap[k]| > 0 && IsUpper(FilterMap[k][0])
  }

  /** The `wire=value` item one filter option becomes. */
  function FilterItem(prefix: string, k: string, v: Value): string
    requires k in FilterMap
  {
    FilterMapShape(k);
    FilterKey(prefix, FilterMap[k]) + "=" + FilterValueText(v)
  }

  // ---------------------------------------------------------------------------
  // Specification of the extraction

  type Options = Dict.Dict<Value>

  /** The entries whose key is not a filter option, in their order. */
  function Rest(opts: Options): Options
  {
    if |opts| == 0 then []
    else
      var last := opts[|opts| - 1];
      Rest(opts[..|opts| - 1]) + (if last.0 in FilterMap then [] else [last])
  }

  /** The `wire=value` items of the filter entries, in their order. */
  function FilterItems(prefix: string, opts: Options): seq<string>
  {
    if |opts| == 0 then []
    else
      var last := opts[|opts| - 1];
      FilterItems(prefix, opts[..|opts| - 1])
        + (if last.0 in FilterMap then [FilterItem(prefix, last.0, last.1)] else [])
  }

  /** Some filter entry needs the entity prefix. */
  predicate NeedsPrefix(opts: Options)
  {
    |opts| > 0 && (NeedsPrefix(opts[..|opts| - 1]) || Prefixed(opts[|opts| - 1].0))
  }

  predicate HasFilterKey(opts: Options)
  {
    exists i :: 0 <= i < |opts| && opts[i].0 in FilterMap
  }

  /** What the extraction loop leaves in the options, prefixing with `prefix` (`None` when
      the entity is not a string, so that prefixing raises `TypeError`). */
  function Translated(prefix: Option<string>, opts: Options): Result<Options>
  {
    if prefix.None? && NeedsPrefix(opts) then Failure(TypeError)
    else
      var items := FilterItems(prefix.GetOr(""), opts);
      Success(if |items| == 0 then Rest(opts) else Dict.Put(Rest(opts), "filter", Str(Join(";", items))))
  }

  /** Segments of a concatenation are the concatenation of the segments. */
  lemma SegmentsConcat(a: Options, b: Options)
    ensures Segments(a + b) == Segments(a) + Segments(b)
  {
  }

  lemma SegmentsSingle(k: string, v: Value)
    ensures Segments([(k, v)]) == [k + ":" + Text(v)]
  {
    assert Segments([(k, v)])[0] == k + ":" + Text(v);
  }

  /** One `key:value` path segment per entry, in order. */
  function Segments(opts: Options): (segs: seq<string>)
    ensures |segs| == |opts|
  {
    seq(|opts|, i requires 0 <= i < |opts| => opts[i].0 + ":" + Text(opts[i].1))
  }

  /** The request URL for the given path segments. */
  function RequestUrl(segs: seq<string>): string
  {
    BaseUrl + Join("/", segs)
  }

  /** The URL is the base URL followed by the segments, which read back when split at `/`. */
  lemma RequestUrlSegments(segs: seq<string>)
    requires |segs| >= 1
    requires forall i :: 0 <= i < |segs| ==> '/' !in segs[i]
    ensures RequestUrl(segs)[..|BaseUrl|] == BaseUrl
    ensures Split(RequestUrl(segs)[|BaseUrl|..], '/') == segs
  {
    var url := RequestUrl(segs);
    assert url[|BaseUrl|..] == Join("/", segs);
    SplitJoin(segs, '/');
  }

  /** What `url_from_options` produces: the path segments after the extraction. */
  function UrlSegments(kwargs: Options): Result<seq<string>>
  {
    match Dict.Get(kwargs, "export")
    case None => Failure(KeyError("export"))
    case Some(entity) =>
      match Translated(ExportText(entity), kwargs)
      case Failure(e) => Failure(e)
      case Success(opts) => Success(Segments(opts))
  }

  // ---------------------------------------------------------------------------
  // The operations

  /** The extraction loop: walks a snapshot of the keys, pops every filter option and
      collects its `wire=value` item. It stops (`ok` false) where prefixing a wire name
      raises `TypeError`, which happens exactly when there is no prefix and some option
      needs one; otherwise it leaves the non-filter entries and every filter item. The keys
      of `kwargs` are distinct, as every dict's are (`DistinctAt` is `Distinct`). */
  method PopFilters(prefix: Option<string>, kwargs: Options)
    returns (ok: bool, opts: Options, filters: seq<string>)
    requires Dict.DistinctAt(kwargs)
    ensures ok <==> !(prefix.None? && NeedsPrefix(kwargs))
    ensures ok ==> opts == Rest(kwargs) && filters == FilterItems(prefix.GetOr(""), kwargs)
  {
    var keys := Dict.Keys(kwargs);
    opts := kwargs;
    filters := [];
    var i := 0;
    while i < |keys|
      invariant 0 <= i <= |keys|
      invariant opts == Rest(kwargs[..i]) + kwargs[i..]
      invariant filters == FilterItems(prefix.GetOr(""), kwargs[..i])
      invariant prefix.None? ==> !NeedsPrefix(kwargs[..i])
    {
      var k := keys[i];
      assert k == kwargs[i].0;
      if k in FilterMap {
        PopFilterStep(prefix.GetOr(""), kwargs, i, opts, filters);
        var value := Dict.Get(opts, k).value;
        opts := Dict.Remove(opts, k);
        var wire := FilterMap[k];
        var text := FilterValueText(value);
        ItemParts(prefix.GetOr(""), k, wire, value);
        if IsUpper(wire[0]) {
          if prefix.None? {
            NeedsPrefixOfPrefix(kwargs, i + 1);
            return false, opts, filters;
          }
          wire := prefix.value + wire;
        }
        filters := filters + [wire + "=" + text];
      } else {
        KeepStep(prefix.GetOr(""), kwargs, i, opts, filters);
      }
      i := i + 1;
    }
    assert kwargs[..i] == kwargs && kwargs[i..] == [];
    ok := true;
  }

  /** `url_from_options`' filter step: the loop, then the `;`-joined items stored under
      `filter` when there are any. */
  method ExtractFilters(prefix: Option<string>, kwargs: Options) returns (r: Result<Options>)
    requires Dict.Distinct(kwargs)
    ensures r == Translated(prefix, kwargs)
  {
    Dict.DistinctIsDistinctAt(kwargs);
    var ok, opts, filters := PopFilters(prefix, kwargs);
    if !ok {
      return Failure(TypeError);
    }
    TranslatedDone(prefix, kwargs, filters);
    if |filters| > 0 {
      opts := Dict.Put(opts, "filter", Str(Join(";", filters)));
    }
    r := Success(opts);
  }

  /** Once every key has been visited, what is left is `Translated`'s result. */
  lemma TranslatedDone(prefix: Option<string>, kwargs: Options, filters: seq<string>)
    requires filters == FilterItems(prefix.GetOr(""), kwargs)
    requires prefix.None? ==> !NeedsPrefix(kwargs)
    ensures Translated(prefix, kwargs) == Success(if |filters| == 0 then Rest(kwargs)
                                                  else Dict.Put(Rest(kwargs), "filter", Str(Join(";", filters))))
  {
  }

  /** `url_from_options`: reads the entity from `export` (a `KeyError` when it is missing),
      extracts the filters and joins every entry, as a path segment, onto the base URL. */
  method UrlFromOptions(kwargs: Options) returns (r: Result<string>)
    requires Dict.Distinct(kwargs)
    ensures r.Success? <==> UrlSegments(kwargs).Success?
    ensures r.Failure? ==> r == Failure(UrlSegments(kwargs).error)
    ensures r.Success? ==> r.value == RequestUrl(UrlSegments(kwargs).value)
  {
    var entity := Dict.Get(kwargs, "export");
    if entity.None? {
      return Failure(KeyError("export"));
    }
    var t := ExtractFilters(ExportText(entity.value), kwargs);
    match t {
      case Failure(e) => r := Failure(e);
      case Success(opts) => r := Success(RequestUrl(Segments(opts)));
    }
  }

  // ---------------------------------------------------------------------------
  // Lemmas

  /** How the specification functions grow by one entry. */
  lemma StepFacts(prefix: string, kwargs: Options, i: nat)
    requires i < |kwargs|
    ensures kwargs[..i + 1] + kwargs[i + 1..] == kwargs
    ensures kwargs[..i + 1][..i] == kwargs[..i]
    ensures kwargs[i].0 !in FilterMap ==>
              Rest(kwargs[..i]) + kwargs[i..] == Rest(kwargs[..i + 1]) + kwargs[i + 1..]
    ensures FilterItems(prefix, kwargs[..i + 1]) == FilterItems(prefix, kwargs[..i])
              + (if kwargs[i].0 in FilterMap then [FilterItem(prefix, kwargs[i].0, kwargs[i].1)] else [])
    ensures NeedsPrefix(kwargs[..i + 1]) == (NeedsPrefix(kwargs[..i]) || Prefixed(kwargs[i].0))
  {
    assert kwargs[..i + 1][..i] == kwargs[..i];
    assert kwargs[i..] == [kwargs[i]] + kwargs[i + 1..];
  }

  /** The two pieces the loop assembles a filter item from. */
  lemma ItemParts(prefix: string, k: string, wire: string, v: Value)
    requires k in FilterMap && wire == FilterMap[k]
    ensures |wire| > 0 && (Prefixed(k) <==> IsUpper(wire[0]))
    ensures FilterItem(prefix, k, v)
            == (if IsUpper(wire[0]) then prefix + wire else wire) + "=" + FilterValueText(v)
  {
    FilterMapShape(k);
  }

  /** One turn of the extraction loop on an option that is not a filter: the loop's
      state already describes one more entry. */
  lemma KeepStep(prefix: string, kwargs: Options, i: nat, opts: Options, filters: seq<string>)
    requires i < |kwargs| && kwargs[i].0 !in FilterMap
    requires opts == Rest(kwargs[..i]) + kwargs[i..]
    requires filters == FilterItems(prefix, kwargs[..i])
    ensures opts == Rest(kwargs[..i + 1]) + kwargs[i + 1..]
    ensures filters == FilterItems(prefix, kwargs[..i + 1])
    ensures NeedsPrefix(kwargs[..i + 1]) == NeedsPrefix(kwargs[..i])
  {
    StepFacts(prefix, kwargs, i);
  }

  /** One turn of the extraction loop on the filter option at position `i`: popping it
      yields its value and the state for one more entry, and its item extends the list. */
  lemma PopFilterStep(prefix: string, kwargs: Options, i: nat, opts: Options, filters: seq<string>)
    requires Dict.DistinctAt(kwargs) && i < |kwargs| && kwargs[i].0 in FilterMap
    requires opts == Rest(kwargs[..i]) + kwargs[i..]
    requires filters == FilterItems(prefix, kwargs[..i])
    ensures Dict.Get(opts, kwargs[i].0) == Some(kwargs[i].1)
    ensures Dict.Remove(opts, kwargs[i].0) == Rest(kwargs[..i + 1]) + kwargs[i + 1..]
    ensures filters + [FilterItem(prefix, kwargs[i].0, kwargs[i].1)] == FilterItems(prefix, kwargs[..i + 1])
    ensures NeedsPrefix(kwargs[..i + 1]) == (NeedsPrefix(kwargs[..i]) || Prefixed(kwargs[i].0))
  {
    Dict.DistinctIsDistinctAt(kwargs);
    StepFacts(prefix, kwargs, i);
    PopStep(kwargs, i, opts);
  }

  /** An option needing the prefix among the first `n` entries is one of the whole. */
  lemma NeedsPrefixOfPrefix(kwargs: Options, n: nat)
    requires n <= |kwargs| && NeedsPrefix(kwargs[..n])
    ensures NeedsPrefix(kwargs)
  {
    NeedsPrefixGrows(kwargs[..n], kwargs[n..]);
    assert kwargs[..n] + kwargs[n..] == kwargs;
  }

  /** Popping the filter option at position `i` while `opts` is mid-way through the loop. */
  lemma PopStep(kwargs: Options, i: nat, opts: Options)
    requires Dict.Distinct(kwargs) && i < |kwargs| && kwargs[i].0 in FilterMap
    requires opts == Rest(kwargs[..i]) + kwargs[i..]
    ensures Dict.Get(opts, kwargs[i].0) == Some(kwargs[i].1)
    ensures Dict.Remove(opts, kwargs[i].0) == Rest(kwargs[..i + 1]) + kwargs[i + 1..]
  {
    assert kwargs[..i] + kwargs[i..] == kwargs;
    RestDistinct(kwargs[..i], kwargs[i..]);
    var n := |Rest(kwargs[..i])|;
    assert opts[n] == kwargs[i];
    Dict.GetAt(opts, n);
    Dict.RemoveAt(opts, n);
    assert opts[..n] == Rest(kwargs[..i]);
    assert opts[n + 1..] == kwargs[i + 1..];
    assert kwargs[..i + 1][..i] == kwargs[..i];
  }

  /** Dropping one entry keeps the remaining keys distinct. */
  lemma DropDistinct(a: Options, x: (string, Value), b: Options)
    requires Dict.Distinct(a + [x] + b)
    ensures Dict.Distinct(a + b)
  {
    var s := a + [x] + b;
    forall i, j | 0 <= i < j < |a + b| ensures (a + b)[i].0 != (a + b)[j].0 {
      var i' := if i < |a| then i else i + 1;
      var j' := if j < |a| then j else j + 1;
      assert (a + b)[i] == s[i'] && (a + b)[j] == s[j'];
    }
  }

  /** Taking the non-filter entries of a prefix keeps keys distinct. */
  lemma {:induction false} RestDistinct(p: Options, q: Options)
    requires Dict.Distinct(p + q)
    ensures Dict.Distinct(Rest(p) + q)
    decreases |p|
  {
    if |p| > 0 {
      var p', x := p[..|p| - 1], p[|p| - 1];
      assert p' + ([x] + q) == p + q;
      RestDistinct(p', [x] + q);
      assert Rest(p') + [x] + q == Rest(p') + ([x] + q);
      if x.0 in FilterMap {
        DropDistinct(Rest(p'), x, q);
        assert Rest(p) == Rest(p');
      } else {
        assert Rest(p) == Rest(p') + [x];
      }
    }
  }

  lemma {:induction false} NeedsPrefixGrows(p: Options, q: Options)
    requires NeedsPrefix(p)
    ensures NeedsPrefix(p + q)
    decreases |q|
  {
    if |q| > 0 {
      NeedsPrefixGrows(p, q[..|q| - 1]);
      assert (p + q)[..|p + q| - 1] == p + q[..|q| - 1];
    } else {
      assert p + q == p;
    }
  }

  /** The non-filter part and the filter items of a concatenation are the concatenations:
      the extraction keeps the relative order of what it keeps and of what it collects. */
  lemma {:induction false} SplitsConcat(prefix: string, a: Options, b: Options)
    ensures Rest(a + b) == Rest(a) + Rest(b)
    ensures FilterItems(prefix, a + b) == FilterItems(prefix, a) + FilterItems(prefix, b)
    decreases |b|
  {
    if |b| > 0 {
      var b' := b[..|b| - 1];
      assert (a + b)[..|a + b| - 1] == a + b';
      SplitsConcat(prefix, a, b');
    } else {
      assert a + b == a;
    }
  }

  /** `Rest` holds exactly the entries whose key is not a filter option. */
  lemma {:induction false} RestEntries(opts: Options)
    ensures forall x :: x in Rest(opts) <==> x in opts && x.0 !in FilterMap
  {
    if |opts| > 0 {
      var o' := opts[..|opts| - 1];
      RestEntries(o');
      assert opts == o' + [opts[|opts| - 1]];
    }
  }

  /** Filter items are collected exactly when some key is a filter option. */
  lemma {:induction false} FilterItemsEmpty(prefix: string, opts: Options)
    ensures FilterItems(prefix, opts) == [] <==> !HasFilterKey(opts)
  {
    if |opts| > 0 {
      var o' := opts[..|opts| - 1];
      FilterItemsEmpty(prefix, o');
      if HasFilterKey(opts) && opts[|opts| - 1].0 !in FilterMap {
        var i :| 0 <= i < |opts| && opts[i].0 in FilterMap;
        assert o'[i].0 in FilterMap;
      }
      if HasFilterKey(o') {
        var i :| 0 <= i < |o'| && o'[i].0 in FilterMap;
        assert opts[i].0 in FilterMap;
      }
    }
  }

  /** Without a filter option the extraction leaves every entry in place. */
  lemma {:induction false} RestNoFilter(opts: Options)
    requires !HasFilterKey(opts)
    ensures Rest(opts) == opts
  {
    if |opts| > 0 {
      var o' := opts[..|opts| - 1];
      assert !HasFilterKey(o');
      RestNoFilter(o');
      assert opts[|opts| - 1].0 !in FilterMap;
    }
  }

  /** The prefix is needed exactly when some option's wire name starts upper-case. */
  lemma {:induction false} NeedsPrefixExists(opts: Options)
    ensures NeedsPrefix(opts) <==> exists i :: 0 <= i < |opts| && Prefixed(opts[i].0)
  {
    if |opts| > 0 {
      var o' := opts[..|opts| - 1];
      NeedsPrefixExists(o');
      if NeedsPrefix(o') {
        var i :| 0 <= i < |o'| && Prefixed(o'[i].0);
        assert Prefixed(opts[i].0);
      }
      if !Prefixed(opts[|opts| - 1].0) && exists i :: 0 <= i < |opts| && Prefixed(opts[i].0) {
        var i :| 0 <= i < |opts| && Prefixed(opts[i].0);
        assert Prefixed(o'[i].0);
      }
    }
  }

  /** The extraction raises `TypeError` exactly when the entity is not a string and some
      filter needs the entity prefix. */
  lemma TranslatedFails(prefix: Option<string>, opts: Options)
    ensures Translated(prefix, opts).Failure? <==>
              prefix.None? && exists i :: 0 <= i < |opts| && Prefixed(opts[i].0)
  {
    NeedsPrefixExists(opts);
  }

  /** After the extraction no filter option is left, keys stay distinct, and every other
      option except `filter` keeps its value. */
  lemma TranslatedKeeps(prefix: Option<string>, opts: Options, k: string)
    requires Dict.Distinct(opts)
    requires Translated(prefix, opts).Success?
    ensures Dict.Distinct(Translated(prefix, opts).value)
    ensures k in FilterMap ==> k !in Dict.Keys(Translated(prefix, opts).value)
    ensures k !in FilterMap && k != "filter" ==>
              Dict.Get(Translated(prefix, opts).value, k) == Dict.Get(opts, k)
  {
    var rest := Rest(opts);
    RestEntries(opts);
    RestDistinct(opts, []);
    assert opts + [] == opts && rest + [] == rest;
    var items := FilterItems(prefix.GetOr(""), opts);
    var joined := Str(Join(";", items));
    assert Translated(prefix, opts).value == if |items| == 0 then rest else Dict.Put(rest, "filter", joined);
    assert "filter" !in FilterMap;
    // keys of `rest` are keys of `opts` that are not filter options
    forall j | 0 <= j < |rest| ensures rest[j] in opts && rest[j].0 !in FilterMap { assert rest[j] in rest; }
    if k in FilterMap {
      assert k !in Dict.Keys(rest);
      if |items| > 0 {
        assert k !in Dict.Keys(Dict.Put(rest, "filter", joined));
      }
    } else if k != "filter" {
      RestGet(opts, k);
      if |items| > 0 { Dict.PutGet(rest, "filter", joined, k); }
    }
    if |items| > 0 { Dict.PutGet(rest, "filter", joined, k); }
  }

  /** A non-filter option has the same value in `Rest(opts)` as in `opts`. */
  lemma RestGet(opts: Options, k: string)
    requires Dict.Distinct(opts) && k !in FilterMap
    ensures Dict.Get(Rest(opts), k) == Dict.Get(opts, k)
  {
    if k in Dict.Keys(opts) {
      RestGetPresent(opts, Dict.Find(opts, k));
    } else {
      RestGetAbsent(opts, k);
    }
  }

  lemma RestGetPresent(opts: Options, i: nat)
    requires Dict.Distinct(opts) && i < |opts| && opts[i].0 !in FilterMap
    ensures Dict.Get(Rest(opts), opts[i].0) == Some(opts[i].1)
  {
    var rest := Rest(opts);
    RestKeeps(opts, i);
    var j :| 0 <= j < |rest| && rest[j] == opts[i];
    Dict.GetAt(rest, j);
  }

  lemma RestKeeps(opts: Options, i: nat)
    requires Dict.Distinct(opts) && i < |opts| && opts[i].0 !in FilterMap
    ensures Dict.Distinct(Rest(opts)) && opts[i] in Rest(opts)
  {
    assert Dict.Distinct(Rest(opts)) by {
      RestDistinct(opts, []);
      assert opts + [] == opts && Rest(opts) + [] == Rest(opts);
    }
    assert opts[i] in Rest(opts) by {
      RestEntries(opts);
      assert opts[i] in opts;
    }
  }

  lemma RestGetAbsent(opts: Options, k: string)
    requires k !in Dict.Keys(opts)
    ensures k !in Dict.Keys(Rest(opts))
  {
    var rest := Rest(opts);
    RestEntries(opts);
    forall j | 0 <= j < |rest| ensures rest[j].0 != k {
      assert rest[j] in rest;
      var i :| 0 <= i < |opts| && opts[i] == rest[j];
      assert Dict.Keys(opts)[i] == opts[i].0;
    }
  }

  /** A `filter` entry is present afterwards exactly when one was given or some filter
      option was; in the latter case it holds the `;`-joined items, otherwise the options
      are untouched. */
  lemma TranslatedFilterEntry(prefix: Option<string>, opts: Options)
    requires Dict.Distinct(opts)
    requires Translated(prefix, opts).Success?
    ensures "filter" in Dict.Keys(Translated(prefix, opts).value) <==>
              "filter" in Dict.Keys(opts) || HasFilterKey(opts)
    ensures HasFilterKey(opts) ==>
              Dict.Get(Translated(prefix, opts).value, "filter")
                == Some(Str(Join(";", FilterItems(prefix.GetOr(""), opts))))
    ensures !HasFilterKey(opts) ==> Translated(prefix, opts).value == opts
  {
    var items := FilterItems(prefix.GetOr(""), opts);
    var rest := Rest(opts);
    FilterItemsEmpty(prefix.GetOr(""), opts);
    assert "filter" !in FilterMap;
    if HasFilterKey(opts) {
      RestDistinct(opts, []);
      assert opts + [] == opts && rest + [] == rest;
      Dict.PutGet(rest, "filter", Str(Join(";", items)), "filter");
      assert "filter" in Dict.Keys(Dict.Put(rest, "filter", Str(Join(";", items)))) by {
        if "filter" in Dict.Keys(rest) {} else {
          assert Dict.Keys(rest + [("filter", Str(Join(";", items)))])[|rest|] == "filter";
        }
      }
    } else {
      RestNoFilter(opts);
    }
  }

  /** When the caller gave no `filter` entry and some filter option, the filter entry is
      appended after every kept entry. */
  lemma TranslatedFilterLast(prefix: Option<string>, opts: Options)
    requires Translated(prefix, opts).Success?
    requires "filter" !in Dict.Keys(opts) && HasFilterKey(opts)
    ensures Translated(prefix, opts).value
              == Rest(opts) + [("filter", Str(Join(";", FilterItems(prefix.GetOr(""), opts))))]
  {
    FilterItemsEmpty(prefix.GetOr(""), opts);
    RestGetAbsent(opts, "filter");
  }

  /** The entity prefix goes in front of every wire name except `authorId`. */
  lemma FilterItemPrefix(prefix: string, k: string, v: Value)
    requires k in FilterMap
    ensures k == "author_id" ==> FilterItem(prefix, k, v) == "authorId=" + FilterValueText(v)
    ensures k != "author_id" ==> FilterItem(prefix, k, v) == prefix + FilterMap[k] + "=" + FilterValueText(v)
  {
    FilterMapShape(k);
  }

  /** A list value becomes its element texts joined by commas, in order. Splitting at the
      commas gives them back when the list is non-empty and no element text holds a comma.
      Any other value is used as it formats. */
  lemma FilterValueTextItems(v: Value)
    ensures !v.Items? ==> FilterValueText(v) == Text(v)
    ensures v.Str? ==> FilterValueText(v) == v.s
    ensures (v.Items? && |v.items| > 0 && forall i :: 0 <= i < |v.items| ==> ',' !in ItemText(v.items[i]))
              ==> Split(FilterValueText(v), ',') == ItemTexts(v.items)
  {
    if v.Items? && |v.items| > 0 && (forall i :: 0 <= i < |v.items| ==> ',' !in ItemText(v.items[i])) {
      SplitJoin(ItemTexts(v.items), ',');
    }
  }

  /** An `export` that is not a `str` (a number, say) fails with `TypeError` exactly when some
      option's filter is entity-scoped; without such an option the path is built as usual. */
  lemma NonStringExport(kwargs: Options, v: Value)
    requires Dict.Get(kwargs, "export") == Some(v) && !IsStr(v)
    ensures UrlSegments(kwargs).Failure? <==> exists i :: 0 <= i < |kwargs| && Prefixed(kwargs[i].0)
    ensures UrlSegments(kwargs).Failure? ==> UrlSegments(kwargs) == Failure(TypeError)
  {
    TranslatedFails(None, kwargs);
  }

  /** `url_from_options` raises `KeyError` without `export`, and never fails when `export`
      holds an entity kind. */
  lemma UrlSegmentsErrors(kwargs: Options)
    ensures "export" !in Dict.Keys(kwargs) ==> UrlSegments(kwargs) == Failure(KeyError("export"))
    ensures (Dict.Get(kwargs, "export").Some? && Dict.Get(kwargs, "export").value.Kind?)
              ==> UrlSegments(kwargs).Success?
  {
  }

  /** Without a caller `filter` entry the path is the kept entries' segments in their order,
      then one `filter:` segment when some filter option was given. */
  lemma UrlSegmentsShape(kwargs: Options, e: Entity)
    requires Dict.Get(kwargs, "export") == Some(Kind(e))
    requires "filter" !in Dict.Keys(kwargs)
    ensures HasFilterKey(kwargs) ==>
              UrlSegments(kwargs) == Success(Segments(Rest(kwargs)) + ["filter:" + Join(";", FilterItems(EntityName(e), kwargs))])
    ensures !HasFilterKey(kwargs) ==> UrlSegments(kwargs) == Success(Segments(Rest(kwargs)))
  {
    var name := EntityName(e);
    assert ExportText(Kind(e)) == Some(name);
    var t := Translated(Some(name), kwargs);
    assert t.Success?;
    assert UrlSegments(kwargs) == Success(Segments(t.value));
    if HasFilterKey(kwargs) {
      var joined := Join(";", FilterItems(name, kwargs));
      var tail := [("filter", Str(joined))];
      TranslatedFilterLast(Some(name), kwargs);
      assert t.value == Rest(kwargs) + tail;
      SegmentsConcat(Rest(kwargs), tail);
      SegmentsSingle("filter", Str(joined));
      assert "filter" + ":" == "filter:";
      assert "filter" + ":" + Text(Str(joined)) == "filter:" + joined;
    } else {
      FilterItemsEmpty(name, kwargs);
      assert t.value == Rest(kwargs);
      assert Segments(Rest(kwargs)) + [] == Segments(Rest(kwargs));
    }
  }

  // ---------------------------------------------------------------------------
  // Worked examples (the helpers below them only pin down string literals)

  /** Example: `min_rating` for images is entity-scoped. */
  lemma MinRatingExample()
    ensures FilterItem(EntityName(Image), "min_rating", Float("3.5")) == "zxPictureMinRating=3.5"
  {
    FilterItemPrefix(EntityName(Image), "min_rating", Float("3.5"));
    assert "zxPicture" + "MinRating" + "=" + "3.5" == "zxPictureMinRating=3.5";
  }

  /** Example: `id` is entity-scoped. */
  lemma IdExample()
    ensures FilterItem(EntityName(Image), "id", Int(42)) == "zxPictureId=42"
  {
    FilterItemPrefix(EntityName(Image), "id", Int(42));
    assert NatText(4) == "4" && NatText(42) == "42";
    assert "zxPicture" + "Id" + "=" + "42" == "zxPictureId=42";
  }

  /** Example: `author_id` is not entity-scoped. */
  lemma AuthorIdExample()
    ensures FilterItem(EntityName(Image), "author_id", Int(5)) == "authorId=5"
  {
    FilterItemPrefix(EntityName(Image), "author_id", Int(5));
    assert NatText(5) == "5";
    assert "authorId=" + "5" == "authorId=5";
  }

  /** Example: a list of tags for tunes is comma-joined. */
  lemma TagsExample()
    ensures FilterItem(EntityName(Tune), "tags_include", Items([IStr("demo"), IStr("music")]))
              == "zxMusicTagsInclude=demo,music"
  {
    FilterItemPrefix(EntityName(Tune), "tags_include", Items([IStr("demo"), IStr("music")]));
    assert ItemTexts([IStr("demo"), IStr("music")]) == ["demo", "music"];
    assert ["demo", "music"][1..] == ["music"];
    assert Join(",", ["demo", "music"]) == "demo" + "," + "music";
    assert "zxMusic" + "TagsInclude" + "=" + ("demo" + "," + "music") == "zxMusicTagsInclude=demo,music";
  }

  /** An example request: generic options pass through in order, the filters are gathered
      into one last segment. */
  lemma UrlExample(kw: Options)
    requires kw == ExampleOptions()
    ensures UrlSegments(kw)
            == Success(["language:rus", "export:zxPicture",
                        "filter:zxPictureMinRating=3.5;authorId=5"])
  {
    ExampleKeys();
    UrlSegmentsShape(kw, Image);
    ExampleParts(kw);
    ExampleTexts();
    var items := FilterItems(EntityName(Image), kw);
    assert items == ["zxPictureMinRating=3.5", "authorId=5"];
    var s1 := Segments(Rest(kw));
    assert s1 == ["language:rus", "export:zxPicture"];
    var s2 := "filter:" + Join(";", items);
    assert s2 == "filter:zxPictureMinRating=3.5;authorId=5";
    assert UrlSegments(kw) == Success(s1 + [s2]);
    assert s1 + [s2] == ["language:rus", "export:zxPicture", "filter:zxPictureMinRating=3.5;authorId=5"];
  }

  function ExampleOptions(): Options
  {
    [("language", Lang(Russian)), ("export", Kind(Image)),
     ("min_rating", Float("3.5")), ("author_id", Int(5))]
  }

  lemma ExampleKeys()
    ensures Dict.Get(ExampleOptions(), "export") == Some(Kind(Image))
    ensures "filter" !in Dict.Keys(ExampleOptions())
    ensures HasFilterKey(ExampleOptions())
  {
    var kw := ExampleOptions();
    assert Dict.Keys(kw)[1] == "export";
    Dict.GetAt(kw, 1);
    assert kw[2].0 in FilterMap;
    assert Dict.Keys(kw) == ["language", "export", "min_rating", "author_id"];
  }

  lemma ExampleParts(kw: Options)
    requires kw == ExampleOptions()
    ensures FilterItems(EntityName(Image), kw) == ["zxPictureMinRating=3.5", "authorId=5"]
    ensures Rest(kw) == ExampleOptions()[..2]
  {
    assert EntityName(Image) == "zxPicture";
    ExampleStep3();
    StepFacts("zxPicture", kw, 3);
    assert kw[..4] == kw;
    assert "author_id" in FilterMap;
    AuthorIdExample();
  }

  lemma ExampleStep3()
    ensures FilterItems("zxPicture", ExampleOptions()[..3]) == ["zxPictureMinRating=3.5"]
    ensures Rest(ExampleOptions()[..3]) == ExampleOptions()[..2]
  {
    var kw := ExampleOptions();
    ExampleStep2();
    StepFacts("zxPicture", kw, 2);
    assert "min_rating" in FilterMap;
    MinRatingExample();
  }

  lemma ExampleStep2()
    ensures FilterItems("zxPicture", ExampleOptions()[..2]) == []
    ensures Rest(ExampleOptions()[..2]) == ExampleOptions()[..2]
  {
    var kw := ExampleOptions();
    assert kw[..0] == [];
    StepFacts("zxPicture", kw, 0);
    StepFacts("zxPicture", kw, 1);
    assert "language" !in FilterMap && "export" !in FilterMap;
    assert Rest(kw[..1]) == kw[..1];
  }

  lemma ExampleTexts()
    ensures Segments(ExampleOptions()[..2]) == ["language:rus", "export:zxPicture"]
    ensures "filter:" + Join(";", ["zxPictureMinRating=3.5", "authorId=5"])
              == "filter:zxPictureMinRating=3.5;authorId=5"
  {
    ExampleSegments(ExampleOptions()[..2]);
    ExampleJoin(["zxPictureMinRating=3.5", "authorId=5"]);
  }

  lemma ExampleSegments(kw: Options)
    requires kw == [("language", Lang(Russian)), ("export", Kind(Image))]
    ensures Segments(kw) == ["language:rus", "export:zxPicture"]
  {
    assert Segments(kw)[0] == "language" + ":" + "rus" == "language:rus";
    assert Segments(kw)[1] == "export" + ":" + "zxPicture" == "export:zxPicture";
  }

  lemma ExampleJoin(items: seq<string>)
    requires items == ["zxPictureMinRating=3.5", "authorId=5"]
    ensures "filter:" + Join(";", items) == "filter:zxPictureMinRating=3.5;authorId=5"
  {
    assert items[1..] == ["authorId=5"];
    assert Join(";", items) == "zxPictureMinRating=3.5" + ";" + "authorId=5";
    assert "filter:" + "zxPictureMinRating=3.5" == "filter:zxPictureMinRating=3.5";
    assert "filter:zxPictureMinRating=3.5" + ";" == "filter:zxPictureMinRating=3.5;";
  }
}
