/** The API client: option defaults, session ownership and request building
    (zxart/client.py). */
module Client {
  import opened Wrappers
  import Strings
  import Dict
  import Common
  import Models

  const DefaultLanguage: Common.Language := Common.Russian
  const DefaultLimit: int := 60
  const DefaultSorting: Common.Sort := Common.Named(Common.MostRecent)

  /** `limit or 60`: zero is falsy and is replaced like an absent limit. */
  function LimitOrDefault(limit: Option<int>): (n: int)
    ensures n != 0
    ensures limit.Some? && limit.value != 0 ==> n == limit.value
    ensures limit.None? || limit.value == 0 ==> n == DefaultLimit
  {
    if limit.Some? && limit.value != 0 then limit.value else DefaultLimit
  }

  /** An HTTP session; only whether it has been closed is modelled. */
  class Session {
    var closed: bool

    constructor ()
      ensures !closed
    {
      closed := false;
    }

    method Close()
      modifies this
      ensures closed
    {
      closed := true;
    }
  }

  /** The options of one request after the client has merged in its own: the filter
      options (only when the caller gave any options at all) are folded into `filter`;
      `language`, `limit` and `order` are added when absent; `export` is set to the entity. */
  function MergedOptions(entity: Common.Entity, language: Common.Language, limit: int,
                         sorting: Common.Sort, kwargs: Common.Options): Common.Options
  {
    Dict.Put(Defaulted(language, limit, sorting, Filtered(entity, kwargs)), "export", Common.Kind(entity))
  }

  /** The filter step, with the entity's wire name as the prefix; skipped for no options. */
  function Filtered(entity: Common.Entity, kwargs: Common.Options): Common.Options
  {
    if |kwargs| > 0 then
      Common.TranslatedFails(Some(Common.EntityName(entity)), kwargs);
      Common.Translated(Some(Common.EntityName(entity)), kwargs).value
    else kwargs
  }

  /** The three `setdefault` calls. */
  function Defaulted(language: Common.Language, limit: int, sorting: Common.Sort,
                     opts: Common.Options): Common.Options
  {
    Dict.SetDefault(Dict.SetDefault(Dict.SetDefault(opts, "language", Common.Lang(language)),
                                    "limit", Common.Int(limit)),
                    "order", Common.Order(sorting))
  }

  class ZXArtClient {
    const language: Common.Language
    const limit: int
    const sorting: Common.Sort
    const session: Session
    /** Whether the client created its session, and so must close it. */
    const closeConnector: bool

    constructor (language: Option<Common.Language>, limit: Option<int>,
                 sorting: Option<Common.Sort>, session: Session?)
      ensures this.language == language.GetOr(DefaultLanguage)
      ensures this.limit == LimitOrDefault(limit)
      ensures this.sorting == sorting.GetOr(DefaultSorting)
      ensures closeConnector <==> session == null
      ensures session != null ==> this.session == session
      ensures session == null ==> fresh(this.session) && !this.session.closed
    {
      this.language := language.GetOr(DefaultLanguage);
      this.limit := LimitOrDefault(limit);
      this.sorting := sorting.GetOr(DefaultSorting);
      if session == null {
        this.session := new Session();
      } else {
        this.session := session;
      }
      this.closeConnector := session == null;
    }

    /** Closes the session only when the client created it. */
    method Close()
      modifies if closeConnector then {session} else {}
      ensures closeConnector ==> session.closed
      ensures !closeConnector ==> session.closed == old(session.closed)
    {
      if closeConnector {
        session.Close();
      }
    }

    /** `api`: builds the request URL from the caller's options (a Python dict, so its
        keys are distinct), then decodes the server's reply (a parameter here) and selects
        the list of the requested kind. */
    method Api(entity: Common.Entity, kwargs: Common.Options, reply: Models.Envelope)
      returns (url: string, result: Result<Option<Models.Records>>)
      requires Dict.Distinct(kwargs)
      ensures url == Common.RequestUrl(Common.Segments(MergedOptions(entity, language, limit, sorting, kwargs)))
      ensures result == match Models.Decode(reply)
                        case Failure(e) => Failure(e)
                        case Success(r) => Success(Models.Select(r.data, entity))
    {
      var opts := kwargs;
      if |opts| > 0 {
        var filtered := Common.ExtractFilters(Some(Common.EntityName(entity)), opts);
        Common.TranslatedFails(Some(Common.EntityName(entity)), opts);
        opts := filtered.value;
      }
      opts := Dict.SetDefault(opts, "language", Common.Lang(language));
      opts := Dict.SetDefault(opts, "limit", Common.Int(limit));
      opts := Dict.SetDefault(opts, "order", Common.Order(sorting));
      opts := Dict.Put(opts, "export", Common.Kind(entity));
      url := Common.RequestUrl(Common.Segments(opts));
      var decoded := Models.Decode(reply);
      match decoded {
        case Failure(e) => result := Failure(e);
        case Success(r) => result := Success(Models.Select(r.data, entity));
      }
    }
  }

  // ---------------------------------------------------------------------------
  // Properties of the merged options

  /** The filter step keeps the keys distinct and leaves every non-filter option alone. */
  lemma FilteredKeeps(entity: Common.Entity, kwargs: Common.Options, k: string)
    requires Dict.Distinct(kwargs)
    ensures Dict.Distinct(Filtered(entity, kwargs))
    ensures k !in Common.FilterMap && k != "filter" ==>
              Dict.Get(Filtered(entity, kwargs), k) == Dict.Get(kwargs, k)
  {
    if |kwargs| > 0 {
      Common.TranslatedFails(Some(Common.EntityName(entity)), kwargs);
      Common.TranslatedKeeps(Some(Common.EntityName(entity)), kwargs, k);
    }
  }

  /** The client's options fill in only what the caller left out. */
  lemma DefaultedGet(language: Common.Language, limit: int, sorting: Common.Sort,
                     opts: Common.Options)
    requires Dict.Distinct(opts)
    ensures var d := Defaulted(language, limit, sorting, opts);
            Dict.Distinct(d)
            && Dict.Get(d, "language") == Some(Dict.Get(opts, "language").GetOr(Common.Lang(language)))
            && Dict.Get(d, "limit") == Some(Dict.Get(opts, "limit").GetOr(Common.Int(limit)))
            && Dict.Get(d, "order") == Some(Dict.Get(opts, "order").GetOr(Common.Order(sorting)))
  {
    var d1 := Dict.SetDefault(opts, "language", Common.Lang(language));
    Dict.SetDefaultGet(opts, "language", Common.Lang(language), "limit");
    Dict.SetDefaultGet(opts, "language", Common.Lang(language), "order");
    var d2 := Dict.SetDefault(d1, "limit", Common.Int(limit));
    Dict.SetDefaultGet(d1, "limit", Common.Int(limit), "language");
    Dict.SetDefaultGet(d1, "limit", Common.Int(limit), "order");
    Dict.SetDefaultGet(d2, "order", Common.Order(sorting), "language");
    Dict.SetDefaultGet(d2, "order", Common.Order(sorting), "limit");
  }

  /** The filter step leaves `language`, `limit` and `order` (none of them a filter option). */
  lemma FilteredKeepsDefaults(entity: Common.Entity, kwargs: Common.Options)
    requires Dict.Distinct(kwargs)
    ensures var f := Filtered(entity, kwargs);
            Dict.Distinct(f)
            && Dict.Get(f, "language") == Dict.Get(kwargs, "language")
            && Dict.Get(f, "limit") == Dict.Get(kwargs, "limit")
            && Dict.Get(f, "order") == Dict.Get(kwargs, "order")
  {
    assert "language" !in Common.FilterMap;
    FilteredKeeps(entity, kwargs, "language");
    assert "limit" !in Common.FilterMap;
    FilteredKeeps(entity, kwargs, "limit");
    assert "order" !in Common.FilterMap;
    FilteredKeeps(entity, kwargs, "order");
  }

  /** Caller-supplied `language`, `limit` and `order` are kept; absent ones come from the
      client. `export` is always the entity, and the keys stay distinct. */
  lemma MergedDefaults(entity: Common.Entity, language: Common.Language, limit: int,
                       sorting: Common.Sort, kwargs: Common.Options)
    requires Dict.Distinct(kwargs)
    ensures var m := MergedOptions(entity, language, limit, sorting, kwargs);
            Dict.Distinct(m)
            && Dict.Get(m, "language") == Some(Dict.Get(kwargs, "language").GetOr(Common.Lang(language)))
            && Dict.Get(m, "limit") == Some(Dict.Get(kwargs, "limit").GetOr(Common.Int(limit)))
            && Dict.Get(m, "order") == Some(Dict.Get(kwargs, "order").GetOr(Common.Order(sorting)))
            && Dict.Get(m, "export") == Some(Common.Kind(entity))
  {
    var f := Filtered(entity, kwargs);
    FilteredKeepsDefaults(entity, kwargs);
    var d := Defaulted(language, limit, sorting, f);
    DefaultedGet(language, limit, sorting, f);
    Dict.PutGet(d, "export", Common.Kind(entity), "language");
    Dict.PutGet(d, "export", Common.Kind(entity), "limit");
    Dict.PutGet(d, "export", Common.Kind(entity), "order");
  }

  /** `export` is the entity: a caller's `export` keeps its position, otherwise it comes
      last, after the defaults. */
  lemma MergedExportPosition(entity: Common.Entity, language: Common.Language, limit: int,
                             sorting: Common.Sort, kwargs: Common.Options)
    requires Dict.Distinct(kwargs)
    ensures var d := Defaulted(language, limit, sorting, Filtered(entity, kwargs));
            var m := MergedOptions(entity, language, limit, sorting, kwargs);
            ("export" in Dict.Keys(kwargs) ==> Dict.Keys(m) == Dict.Keys(d))
            && ("export" !in Dict.Keys(kwargs) ==> m == d + [("export", Common.Kind(entity))])
  {
    var f := Filtered(entity, kwargs);
    assert Dict.Get(Defaulted(language, limit, sorting, f), "export") == Dict.Get(kwargs, "export") by {
      ClientKeysNotFilters();
      FilteredKeeps(entity, kwargs, "export");
      DefaultedOther(language, limit, sorting, f, "export");
    }
  }

  /** Any option other than the three defaulted ones passes the `setdefault` calls unchanged. */
  lemma DefaultedOther(language: Common.Language, limit: int, sorting: Common.Sort,
                       opts: Common.Options, k: string)
    requires Dict.Distinct(opts)
    requires k != "language" && k != "limit" && k != "order"
    ensures Dict.Get(Defaulted(language, limit, sorting, opts), k) == Dict.Get(opts, k)
  {
    var d1 := Dict.SetDefault(opts, "language", Common.Lang(language));
    Dict.SetDefaultGet(opts, "language", Common.Lang(language), k);
    var d2 := Dict.SetDefault(d1, "limit", Common.Int(limit));
    Dict.SetDefaultGet(d1, "limit", Common.Int(limit), k);
    Dict.SetDefaultGet(d2, "order", Common.Order(sorting), k);
  }

  /** None of the options the client sets is a filter option. */
  lemma ClientKeysNotFilters()
    ensures "language" !in Common.FilterMap && "limit" !in Common.FilterMap
    ensures "order" !in Common.FilterMap && "export" !in Common.FilterMap
  {
  }

  /** The filter step on its own: no key of the filter table is left, the filter options
      are all in `filter` when the caller gave any, and otherwise nothing changes. */
  lemma FilteredFilter(entity: Common.Entity, kwargs: Common.Options, k: string)
    requires Dict.Distinct(kwargs)
    ensures var f := Filtered(entity, kwargs);
            (k in Common.FilterMap ==> k !in Dict.Keys(f))
            && (Common.HasFilterKey(kwargs) ==>
                  Dict.Get(f, "filter")
                    == Some(Common.Str(Strings.Join(";", Common.FilterItems(Common.EntityName(entity), kwargs)))))
            && (!Common.HasFilterKey(kwargs) ==> f == kwargs)
  {
    var prefix := Some(Common.EntityName(entity));
    if |kwargs| > 0 {
      Common.TranslatedFails(prefix, kwargs);
      Common.TranslatedKeeps(prefix, kwargs, k);
      Common.TranslatedFilterEntry(prefix, kwargs);
      if !Common.HasFilterKey(kwargs) {
        Common.FilterItemsEmpty(Common.EntityName(entity), kwargs);
        Common.RestNoFilter(kwargs);
      }
    }
  }

  /** The filter options of the request: none of the filter table's keys is left, and when
      the caller gave any of them they are all in `filter`, in the caller's order; without
      them the filter step changes nothing. */
  lemma MergedFilter(entity: Common.Entity, language: Common.Language, limit: int,
                     sorting: Common.Sort, kwargs: Common.Options, k: string)
    requires Dict.Distinct(kwargs)
    ensures var m := MergedOptions(entity, language, limit, sorting, kwargs);
            (k in Common.FilterMap ==> k !in Dict.Keys(m))
            && (Common.HasFilterKey(kwargs) ==>
                  Dict.Get(m, "filter")
                    == Some(Common.Str(Strings.Join(";", Common.FilterItems(Common.EntityName(entity), kwargs)))))
            && (!Common.HasFilterKey(kwargs) ==> Filtered(entity, kwargs) == kwargs)
  {
    var f := Filtered(entity, kwargs);
    FilteredKeeps(entity, kwargs, k);
    FilteredFilter(entity, kwargs, k);
    var d := Defaulted(language, limit, sorting, f);
    DefaultedGet(language, limit, sorting, f);
    if k in Common.FilterMap {
      ClientKeysNotFilters();
      DefaultedOther(language, limit, sorting, f, k);
      Dict.PutGet(d, "export", Common.Kind(entity), k);
    }
    DefaultedOther(language, limit, sorting, f, "filter");
    Dict.PutGet(d, "export", Common.Kind(entity), "filter");
  }

  /** The defaulted keys the caller left out, in the order `api` adds them. */
  function MissingDefaults(kwargs: Common.Options): seq<string>
  {
    Absent(kwargs, "language") + Absent(kwargs, "limit") + Absent(kwargs, "order")
  }

  /** `[k]` when `k` is not a key of `d`, nothing otherwise. */
  function Absent<V>(d: Dict.Dict<V>, k: string): seq<string>
  {
    if k in Dict.Keys(d) then [] else [k]
  }

  /** One `setdefault` appends its key when missing and leaves every other key as it was. */
  lemma SetDefaultAbsent<V>(d: Dict.Dict<V>, k: string, v: V, k': string)
    ensures Dict.Keys(Dict.SetDefault(d, k, v)) == Dict.Keys(d) + Absent(d, k)
    ensures k' != k ==> Absent(Dict.SetDefault(d, k, v), k') == Absent(d, k')
  {
    Dict.KeysSetDefault(d, k, v);
  }

  /** Three `setdefault` calls and an assignment on distinct keys append exactly the keys
      that were missing, in call order. */
  lemma FourKeys<V>(f: Dict.Dict<V>, a: string, b: string, c: string, e: string,
                    va: V, vb: V, vc: V, ve: V)
    requires a != b && a != c && a != e && b != c && b != e && c != e
    ensures Dict.Keys(Dict.Put(Dict.SetDefault(Dict.SetDefault(Dict.SetDefault(f, a, va), b, vb), c, vc), e, ve))
            == Dict.Keys(f) + (Absent(f, a) + Absent(f, b) + Absent(f, c)) + Absent(f, e)
  {
    var d1 := Dict.SetDefault(f, a, va);
    var d2 := Dict.SetDefault(d1, b, vb);
    var d3 := Dict.SetDefault(d2, c, vc);
    SetDefaultAbsent(f, a, va, b);
    SetDefaultAbsent(f, a, va, c);
    SetDefaultAbsent(f, a, va, e);
    SetDefaultAbsent(d1, b, vb, c);
    SetDefaultAbsent(d1, b, vb, e);
    SetDefaultAbsent(d2, c, vc, e);
    Dict.KeysPut(d3, e, ve);
    assert Absent(d3, e) == (if e in Dict.Keys(d3) then [] else [e]);
  }

  /** Adding the defaults and `export` to any options appends exactly the missing keys. */
  lemma DefaultedKeys(entity: Common.Entity, language: Common.Language, limit: int,
                      sorting: Common.Sort, f: Common.Options)
    ensures Dict.Keys(Dict.Put(Defaulted(language, limit, sorting, f), "export", Common.Kind(entity)))
            == Dict.Keys(f) + MissingDefaults(f) + Absent(f, "export")
  {
    assert "language" != "limit" && "language" != "order" && "language" != "export";
    assert "limit" != "order" && "limit" != "export" && "order" != "export";
    FourKeys(f, "language", "limit", "order", "export",
             Common.Lang(language), Common.Int(limit), Common.Order(sorting), Common.Kind(entity));
  }

  /** The filter step neither adds nor removes any of the client's own keys. */
  lemma FilteredClientKeys(entity: Common.Entity, kwargs: Common.Options)
    requires Dict.Distinct(kwargs)
    ensures MissingDefaults(Filtered(entity, kwargs)) == MissingDefaults(kwargs)
    ensures "export" in Dict.Keys(Filtered(entity, kwargs)) <==> "export" in Dict.Keys(kwargs)
  {
    ClientKeysNotFilters();
    FilteredKeeps(entity, kwargs, "language");
    FilteredKeeps(entity, kwargs, "limit");
    FilteredKeeps(entity, kwargs, "order");
    FilteredKeeps(entity, kwargs, "export");
  }

  /** The merged keys are the filtered options' keys, then the defaults the caller left
      out, then `export` unless the caller gave it (in which case it kept its place). */
  lemma MergedKeys(entity: Common.Entity, language: Common.Language, limit: int,
                   sorting: Common.Sort, kwargs: Common.Options)
    requires Dict.Distinct(kwargs)
    ensures Dict.Keys(MergedOptions(entity, language, limit, sorting, kwargs))
            == Dict.Keys(Filtered(entity, kwargs)) + MissingDefaults(kwargs)
               + Absent(kwargs, "export")
  {
    DefaultedKeys(entity, language, limit, sorting, Filtered(entity, kwargs));
    FilteredClientKeys(entity, kwargs);
  }

  /** When the caller gave filter options but no `filter` key, the new `filter` entry
      follows every other option the caller gave and precedes the defaults the client
      adds; `export` comes last unless the caller gave it. */
  lemma MergedKeyOrder(entity: Common.Entity, language: Common.Language, limit: int,
                       sorting: Common.Sort, kwargs: Common.Options)
    requires Dict.Distinct(kwargs)
    requires "filter" !in Dict.Keys(kwargs) && Common.HasFilterKey(kwargs)
    ensures Dict.Keys(MergedOptions(entity, language, limit, sorting, kwargs))
            == Dict.Keys(Common.Rest(kwargs)) + ["filter"] + MissingDefaults(kwargs)
               + Absent(kwargs, "export")
  {
    MergedKeys(entity, language, limit, sorting, kwargs);
    FilteredKeys(entity, kwargs);
  }

  /** With some filter option and no `filter` of the caller's, the filter step leaves the
      non-filter keys in their order with `filter` after them. */
  lemma FilteredKeys(entity: Common.Entity, kwargs: Common.Options)
    requires Dict.Distinct(kwargs)
    requires "filter" !in Dict.Keys(kwargs) && Common.HasFilterKey(kwargs)
    ensures Dict.Keys(Filtered(entity, kwargs)) == Dict.Keys(Common.Rest(kwargs)) + ["filter"]
  {
    var name := Common.EntityName(entity);
    var entry := ("filter", Common.Str(Strings.Join(";", Common.FilterItems(name, kwargs))));
    assert Filtered(entity, kwargs) == Common.Rest(kwargs) + [entry] by {
      Common.TranslatedFails(Some(name), kwargs);
      Common.TranslatedFilterLast(Some(name), kwargs);
    }
    Dict.KeysConcat(Common.Rest(kwargs), [entry]);
  }

  /** The default sorting renders as the most recent first. */
  lemma DefaultOrderText()
    ensures Common.Text(Common.Order(DefaultSorting)) == "date,desc"
  {
    var s := Common.SortingSettings(Common.Date, Common.Desc);
    assert Common.SettingsOf(DefaultSorting) == s;
    assert Common.Text(Common.Order(DefaultSorting)) == Common.SettingsText(s);
    assert Common.FieldName(s.field) == "date" && Common.OrderName(s.order) == "desc";
    assert Common.SettingsText(s) == "date" + "," + "desc";
    assert "date" + "," + "desc" == "date,desc";
  }

  /** Without options the merged dict holds exactly the client's three, then `export`. */
  lemma DefaultOptions(entity: Common.Entity)
    ensures MergedOptions(entity, DefaultLanguage, DefaultLimit, DefaultSorting, [])
            == [("language", Common.Lang(DefaultLanguage)), ("limit", Common.Int(DefaultLimit)),
                ("order", Common.Order(DefaultSorting)), ("export", Common.Kind(entity))]
  {
    var opts := [("language", Common.Lang(DefaultLanguage)), ("limit", Common.Int(DefaultLimit)),
                 ("order", Common.Order(DefaultSorting))];
    assert Defaulted(DefaultLanguage, DefaultLimit, DefaultSorting, []) == opts;
    assert "export" !in Dict.Keys(opts);
  }

  /** The path segments of the default options. */
  lemma DefaultSegments(entity: Common.Entity, m: Common.Options)
    requires m == [("language", Common.Lang(DefaultLanguage)), ("limit", Common.Int(DefaultLimit)),
                   ("order", Common.Order(DefaultSorting)), ("export", Common.Kind(entity))]
    ensures Common.Segments(m)
            == ["language:rus", "limit:60", "order:date,desc", "export:" + Common.EntityName(entity)]
  {
    SegmentsFour(m[0], m[1], m[2], m[3]);
    assert m == [m[0], m[1], m[2], m[3]];
    DefaultTexts();
    assert "export" + ":" + Common.Text(Common.Kind(entity)) == "export:" + Common.EntityName(entity) by {
      assert "export" + ":" == "export:";
    }
  }

  lemma SegmentsFour(a: (string, Common.Value), b: (string, Common.Value),
                     c: (string, Common.Value), d: (string, Common.Value))
    ensures Common.Segments([a, b, c, d])
            == [a.0 + ":" + Common.Text(a.1), b.0 + ":" + Common.Text(b.1),
                c.0 + ":" + Common.Text(c.1), d.0 + ":" + Common.Text(d.1)]
  {
  }

  lemma DefaultTexts()
    ensures "language" + ":" + Common.Text(Common.Lang(DefaultLanguage)) == "language:rus"
    ensures "limit" + ":" + Common.Text(Common.Int(DefaultLimit)) == "limit:60"
    ensures "order" + ":" + Common.Text(Common.Order(DefaultSorting)) == "order:date,desc"
  {
    assert Common.Text(Common.Lang(DefaultLanguage)) == "rus";
    assert Common.Text(Common.Int(DefaultLimit)) == "60" by {
      assert Strings.NatText(60) == Strings.NatText(6) + [Strings.DigitChar(0)];
    }
    DefaultOrderText();
  }

  /** A request without options: the defaults in order, then the entity. */
  lemma DefaultPath(entity: Common.Entity)
    ensures Common.Segments(MergedOptions(entity, DefaultLanguage, DefaultLimit, DefaultSorting, []))
            == ["language:rus", "limit:60", "order:date,desc", "export:" + Common.EntityName(entity)]
  {
    DefaultOptions(entity);
    DefaultSegments(entity, MergedOptions(entity, DefaultLanguage, DefaultLimit, DefaultSorting, []));
  }
}
