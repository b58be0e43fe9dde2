/** Response records and their scalar decoders (zxart/models.py). */
module Models {
  import opened Wrappers
  import opened Strings
  import Common

  // ---------------------------------------------------------------------------
  // HTML strings: unescape, then unwrap one `<pre>...</pre>`

  /** True when the whole string matches `<pre>(.*)</pre>` (dot matching newlines). */
  predicate IsPreWrapped(s: string)
  {
    |s| >= 11 && s[..5] == "<pre>" && s[|s| - 6..] == "</pre>"
  }

  /** What a full match of `<pre>(.*)</pre>` captures: the text between the outermost tags;
      any other string is returned as it is. */
  function PreUnwrap(s: string): (r: string)
    ensures IsPreWrapped(s) ==> s == "<pre>" + r + "</pre>"
    ensures !IsPreWrapped(s) ==> r == s
  {
    if IsPreWrapped(s) then s[5..|s| - 6] else s
  }

  /** `_unescape`: HTML-unescape (the function `html.unescape`), then unwrap. */
  function Unescape(htmlUnescape: string -> string, value: string): string
  {
    PreUnwrap(htmlUnescape(value))
  }

  /** The regular expression matches exactly the wrapped strings, and the capture is the
      wrapped text, however many tags it holds itself. */
  lemma PreUnwrapWrapped(a: string)
    ensures IsPreWrapped("<pre>" + a + "</pre>")
    ensures PreUnwrap("<pre>" + a + "</pre>") == a
  {
    var s := "<pre>" + a + "</pre>";
    assert s[..5] == "<pre>";
    assert s[|s| - 6..] == "</pre>";
    assert s[5..|s| - 6] == a;
  }

  /** The unwrap happens once: a doubly wrapped text keeps its inner tags, so unwrapping is
      not idempotent. */
  lemma PreUnwrapOnce()
    ensures PreUnwrap("<pre><pre>x</pre></pre>") == "<pre>x</pre>"
    ensures PreUnwrap(PreUnwrap("<pre><pre>x</pre></pre>")) == "x"
  {
    assert "<pre><pre>x</pre></pre>" == "<pre>" + "<pre>x</pre>" + "</pre>";
    PreUnwrapWrapped("<pre>x</pre>");
    assert "<pre>x</pre>" == "<pre>" + "x" + "</pre>";
    PreUnwrapWrapped("x");
  }

  /** Unwrapping applies to the unescaped text: an escaped body inside tags comes out
      unescaped and unwrapped; a text without tags comes out only unescaped. */
  lemma UnescapeUnwraps(htmlUnescape: string -> string, value: string, body: string)
    ensures htmlUnescape(value) == "<pre>" + body + "</pre>" ==> Unescape(htmlUnescape, value) == body
    ensures !IsPreWrapped(htmlUnescape(value)) ==> Unescape(htmlUnescape, value) == htmlUnescape(value)
  {
    PreUnwrapWrapped(body);
  }

  // ---------------------------------------------------------------------------
  // Durations

  function Reverse<T>(s: seq<T>): (r: seq<T>)
    ensures |r| == |s|
    ensures forall i :: 0 <= i < |s| ==> r[i] == s[|s| - 1 - i]
  {
    if |s| == 0 then [] else Reverse(s[1..]) + [s[0]]
  }

  /** The weights of seconds, minutes and hours. */
  const Weights: seq<real> := [1.0, 60.0, 3600.0]

  /** Applies `parse` to each part in turn, failing with `ValueError` at the first it rejects. */
  function ParseAll(parse: string -> Option<real>, parts: seq<string>): (r: Result<seq<real>>)
    ensures r.Success? ==> |r.value| == |parts|
    ensures r.Success? <==> forall i :: 0 <= i < |parts| ==> parse(parts[i]).Some?
    ensures r.Success? ==> forall i :: 0 <= i < |parts| ==> r.value[i] == parse(parts[i]).value
  {
    if |parts| == 0 then Success([])
    else
      match parse(parts[0])
      case None => Failure(ValueError(parts[0]))
      case Some(x) =>
        match ParseAll(parse, parts[1..])
        case Failure(e) => Failure(e)
        case Success(xs) => Success([x] + xs)
  }

  /** `sum(x * k for x, k in zip(xs, ws))` */
  function ZipSum(xs: seq<real>, ws: seq<real>): real
  {
    if |xs| == 0 || |ws| == 0 then 0.0 else xs[0] * ws[0] + ZipSum(xs[1..], ws[1..])
  }

  function Min(a: nat, b: nat): nat { if a < b then a else b }

  /** The duration of the `:`-separated parts, left to right: read from the right, weighted
      1, 60 and 3600. `float` (the function `parse`) is applied lazily as `zip` pulls values,
      and `zip` pulls from the parts before it finds the weights exhausted, so a fourth part
      from the right is parsed (and may raise) but adds nothing, and parts further left are
      never read. */
  function DurationOfParts(parse: string -> Option<real>, parts: seq<string>): Result<real>
  {
    var rev := Reverse(parts);
    match ParseAll(parse, rev[..Min(|rev|, |Weights| + 1)])
    case Failure(e) => Failure(e)
    case Success(xs) => Success(ZipSum(xs, Weights))
  }

  /** `_duration`, in seconds. */
  function Duration(parse: string -> Option<real>, value: string): Result<real>
  {
    DurationOfParts(parse, Split(value, ':'))
  }

  /** The weighted sum of at most three values from the right. */
  function DurationOf(xs: seq<real>): real
  {
    (if |xs| > 0 then xs[0] else 0.0)
      + (if |xs| > 1 then 60.0 * xs[1] else 0.0)
      + (if |xs| > 2 then 3600.0 * xs[2] else 0.0)
  }

  lemma ZipSumWeights(xs: seq<real>)
    ensures ZipSum(xs, Weights) == DurationOf(xs)
  {
    if |xs| > 0 {
      var w1, w2 := [60.0, 3600.0], [3600.0];
      assert Weights[1..] == w1 && w1[1..] == w2 && w2[1..] == [];
      assert ZipSum(xs, Weights) == xs[0] * 1.0 + ZipSum(xs[1..], w1);
      if |xs| > 1 {
        assert ZipSum(xs[1..], w1) == xs[1] * 60.0 + ZipSum(xs[2..], w2) by {
          assert xs[1..][1..] == xs[2..];
        }
        if |xs| > 2 {
          assert ZipSum(xs[2..], w2) == xs[2] * 3600.0 + ZipSum(xs[3..], []) by {
            assert xs[2..][1..] == xs[3..];
          }
        }
      }
    }
  }

  /** Joining parts that hold no `:` and taking the duration reads back those parts. */
  lemma DurationJoin(parse: string -> Option<real>, parts: seq<string>)
    requires |parts| >= 1
    requires forall i :: 0 <= i < |parts| ==> ':' !in parts[i]
    ensures Duration(parse, Join(":", parts)) == DurationOfParts(parse, parts)
  {
    assert ":" == [':'];
    SplitJoin(parts, ':');
  }

  /** The sum over the values pulled from the parts. */
  lemma DurationOfPartsValue(parse: string -> Option<real>, parts: seq<string>)
    ensures var rev := Reverse(parts);
            var r := DurationOfParts(parse, parts);
            var p := ParseAll(parse, rev[..Min(|rev|, 4)]);
            (r.Success? <==> p.Success?) && (r.Success? ==> r.value == DurationOf(p.value))
  {
    var rev := Reverse(parts);
    var p := ParseAll(parse, rev[..Min(|rev|, 4)]);
    if p.Success? {
      ZipSumWeights(p.value);
    }
  }

  lemma DigitsNoColon(s: string)
    requires forall i :: 0 <= i < |s| ==> IsDigit(s[i])
    ensures ':' !in s
  {
    assert !IsDigit(':');
  }

  /** Three parts `h:m:s` that parse give `3600 h + 60 m + s` seconds. */
  lemma DurationThree(parse: string -> Option<real>, h: string, m: string, s: string, x: real, y: real, z: real)
    requires ':' !in h && ':' !in m && ':' !in s
    requires parse(h) == Some(x) && parse(m) == Some(y) && parse(s) == Some(z)
    ensures Duration(parse, Join(":", [h, m, s])) == Success(3600.0 * x + 60.0 * y + z)
  {
    DurationJoin(parse, [h, m, s]);
    DurationOfPartsThree(parse, h, m, s, x, y, z);
  }

  lemma DurationOfPartsThree(parse: string -> Option<real>, h: string, m: string, s: string,
                             x: real, y: real, z: real)
    requires parse(h) == Some(x) && parse(m) == Some(y) && parse(s) == Some(z)
    ensures DurationOfParts(parse, [h, m, s]) == Success(3600.0 * x + 60.0 * y + z)
  {
    var parts := [h, m, s];
    DurationOfPartsValue(parse, parts);
    var rev := Reverse(parts);
    assert rev == [s, m, h];
    assert rev[..Min(|rev|, 4)] == rev;
  }

  /** The decimal text of a number is a valid part that parses back to the number. */
  lemma NatTextPart(n: nat)
    ensures ':' !in NatText(n)
    ensures ParseDigits(NatText(n)) == Some(n as real)
  {
    DigitsNoColon(NatText(n));
    DigitsValueNatText(n);
  }

  /** A well-formed `h:m:s` with decimal parts. */
  lemma DurationHMS(h: nat, m: nat, s: nat)
    ensures Duration(ParseDigits, Join(":", [NatText(h), NatText(m), NatText(s)]))
              == Success(3600.0 * h as real + 60.0 * m as real + s as real)
  {
    NatTextPart(h);
    NatTextPart(m);
    NatTextPart(s);
    DurationThree(ParseDigits, NatText(h), NatText(m), NatText(s), h as real, m as real, s as real);
  }

  /** A bare number of seconds. */
  lemma DurationSeconds(s: nat)
    ensures Duration(ParseDigits, NatText(s)) == Success(s as real)
  {
    DigitsNoColon(NatText(s));
    DurationJoin(ParseDigits, [NatText(s)]);
    DurationOfPartsValue(ParseDigits, [NatText(s)]);
    assert Join(":", [NatText(s)]) == NatText(s);
    DigitsValueNatText(s);
  }

  /** Parsing one more part: it succeeds when both succeed, keeps the earlier values, and
      reports the same first error when the earlier parts already fail. */
  lemma {:induction false} ParseAllSnoc(parse: string -> Option<real>, xs: seq<string>, a: string)
    ensures ParseAll(parse, xs + [a]).Success? <==> ParseAll(parse, xs).Success? && parse(a).Some?
    ensures ParseAll(parse, xs + [a]).Success? ==>
              ParseAll(parse, xs + [a]).value[..|xs|] == ParseAll(parse, xs).value
    ensures ParseAll(parse, xs).Failure? ==> ParseAll(parse, xs + [a]) == ParseAll(parse, xs)
  {
    var ys := xs + [a];
    assert ys[|xs|] == a;
    assert forall i :: 0 <= i < |xs| ==> ys[i] == xs[i];
    if |xs| > 0 {
      assert ys[0] == xs[0] && ys[1..] == xs[1..] + [a];
      ParseAllSnoc(parse, xs[1..], a);
    }
  }

  /** Parts to the left of the hours are ignored when the fourth part from the right
      parses; when it does not, the whole duration fails; further parts are not read. */
  lemma DurationExtraParts(parse: string -> Option<real>, far: seq<string>, a: string, hms: seq<string>)
    requires |hms| == 3
    ensures parse(a).Some? ==> DurationOfParts(parse, far + [a] + hms) == DurationOfParts(parse, hms)
    ensures parse(a).None? ==> DurationOfParts(parse, far + [a] + hms).Failure?
  {
    var all := far + [a] + hms;
    DurationOfPartsValue(parse, all);
    DurationOfPartsValue(parse, hms);
    var r1, r2 := Reverse(all), Reverse(hms);
    assert r1[..4] == r2 + [a];
    assert r2[..3] == r2;
    ParseAllSnoc(parse, r2, a);
    var p1, p2 := ParseAll(parse, r2 + [a]), ParseAll(parse, r2);
    assert |r1| >= 4 && Min(|r1|, 4) == 4 && Min(|r2|, 4) == 3;
    if p1.Success? {
      assert p1.value[..3] == p2.value;
      assert p1.value[0] == p2.value[0] && p1.value[1] == p2.value[1] && p1.value[2] == p2.value[2];
      assert DurationOf(p1.value) == DurationOf(p2.value);
      assert DurationOfParts(parse, all) == Success(DurationOf(p1.value));
      assert DurationOfParts(parse, hms) == Success(DurationOf(p2.value));
    }
  }

  // Worked examples of durations (the helpers among them only pin down string literals)

  lemma JoinCons(p: string, ps: seq<string>)
    requires |ps| >= 1
    ensures Join(":", [p] + ps) == p + ":" + Join(":", ps)
  {
    assert ([p] + ps)[1..] == ps;
  }

  lemma ParseTwoDigits(s: string, d: nat)
    requires |s| == 2 && s[0] == '0' && d < 10 && s[1] == DigitChar(d)
    ensures ParseDigits(s) == Some(d as real)
  {
    assert IsDigit(s[0]) && IsDigit(s[1]);
    var t := s[..1];
    assert t[..0] == [] && t[0] == '0';
    assert DigitsValue(t) == 0;
    assert s[..|s| - 1] == t;
    assert DigitsValue(s) == d;
  }

  /** `1:02:03` is 3723 s. */
  lemma DurationExampleHMS(hms: seq<string>, t: string)
    requires hms == ["1", "02", "03"] && t == "1:02:03"
    ensures Duration(ParseDigits, t) == Success(3723.0)
  {
    HmsParts(hms);
    assert DurationOfParts(ParseDigits, hms) == Success(3723.0) by {
      assert ParseDigits("1") == Some(1.0);
      ParseTwoDigits("02", 2);
      ParseTwoDigits("03", 3);
      DurationOfPartsThree(ParseDigits, "1", "02", "03", 1.0, 2.0, 3.0);
    }
    DurationJoin(ParseDigits, hms);
  }

  lemma HmsParts(hms: seq<string>)
    requires hms == ["1", "02", "03"]
    ensures Join(":", hms) == "1:02:03"
    ensures forall i :: 0 <= i < |hms| ==> ':' !in hms[i]
  {
    JoinThree(":", "1", "02", "03");
    assert "1" + ":" + "02" + ":" + "03" == "1:02:03";
    assert ':' !in hms[0] && ':' !in hms[1] && ':' !in hms[2];
  }

  /** `90` is 90 s. */
  lemma DurationExampleSeconds(t: string)
    requires t == "90"
    ensures Duration(ParseDigits, t) == Success(90.0)
  {
    assert NatText(90) == t;
    DurationSeconds(90);
  }

  /** `00:00:05` is 5 s. */
  lemma DurationExampleFive(hms: seq<string>, t: string)
    requires hms == ["00", "00", "05"] && t == "00:00:05"
    ensures Duration(ParseDigits, t) == Success(5.0)
  {
    TimecodeParts(hms);
    TimecodeFive(hms);
    DurationJoin(ParseDigits, hms);
  }

  lemma TimecodeParts(hms: seq<string>)
    requires hms == ["00", "00", "05"]
    ensures Join(":", hms) == "00:00:05"
    ensures forall i :: 0 <= i < |hms| ==> ':' !in hms[i]
  {
    JoinThree(":", "00", "00", "05");
    assert "00" + ":" + "00" + ":" + "05" == "00:00:05";
    assert ':' !in hms[0] && ':' !in hms[1] && ':' !in hms[2];
  }

  lemma TimecodeFive(hms: seq<string>)
    requires hms == ["00", "00", "05"]
    ensures DurationOfParts(ParseDigits, hms) == Success(5.0)
  {
    ParseTwoDigits("00", 0);
    ParseTwoDigits("05", 5);
    DurationOfPartsThree(ParseDigits, "00", "00", "05", 0.0, 0.0, 5.0);
  }

  lemma PrefixedTimecodes()
    ensures "9" + ":" + "00:00:05" == "9:00:00:05"
    ensures "x" + ":" + "9:00:00:05" == "x:9:00:00:05"
  {
  }

  /** A fourth part from the right that parses is read and ignored: `9:00:00:05` is 5 s. */
  lemma DurationFourthParsed(hms: seq<string>, t: string)
    requires hms == ["00", "00", "05"] && t == "9:00:00:05"
    ensures Duration(ParseDigits, t) == Success(5.0)
  {
    TimecodeParts(hms);
    TimecodeFive(hms);
    assert ParseDigits("9").Some?;
    DurationExtraParts(ParseDigits, [], "9", hms);
    JoinCons("9", hms);
    PrefixedTimecodes();
    assert [] + ["9"] + hms == ["9"] + hms;
    DurationJoin(ParseDigits, ["9"] + hms);
  }

  /** A fourth part from the right that does not parse fails the whole duration. */
  lemma DurationFourthRejected(hms: seq<string>, t: string)
    requires hms == ["00", "00", "05"] && t == "x:00:00:05"
    ensures Duration(ParseDigits, t).Failure?
  {
    TimecodeParts(hms);
    assert ParseDigits("x").None? by { assert !IsDigit("x"[0]); }
    DurationExtraParts(ParseDigits, [], "x", hms);
    JoinCons("x", hms);
    assert "x" + ":" + "00:00:05" == "x:00:00:05";
    assert [] + ["x"] + hms == ["x"] + hms;
    DurationJoin(ParseDigits, ["x"] + hms);
  }

  lemma FivePartTimecode(hms: seq<string>)
    requires hms == ["00", "00", "05"]
    ensures Join(":", ["x", "9"] + hms) == "x:9:00:00:05"
    ensures forall i :: 0 <= i < |["x", "9"] + hms| ==> ':' !in (["x", "9"] + hms)[i]
  {
    TimecodeParts(hms);
    JoinCons("9", hms);
    JoinCons("x", ["9"] + hms);
    PrefixedTimecodes();
    assert ["x"] + (["9"] + hms) == ["x", "9"] + hms;
  }

  /** A fifth part from the right is never parsed: `x:9:00:00:05` is 5 s. */
  lemma DurationFifthIgnored(hms: seq<string>, t: string)
    requires hms == ["00", "00", "05"] && t == "x:9:00:00:05"
    ensures Duration(ParseDigits, t) == Success(5.0)
  {
    var all := ["x", "9"] + hms;
    assert DurationOfParts(ParseDigits, all) == DurationOfParts(ParseDigits, hms) by {
      assert ParseDigits("9").Some?;
      DurationExtraParts(ParseDigits, ["x"], "9", hms);
      assert ["x"] + ["9"] + hms == all;
    }
    TimecodeFive(hms);
    FivePartTimecode(hms);
    DurationJoin(ParseDigits, all);
  }

  // ---------------------------------------------------------------------------
  // Wire names

  /** The aliases of `EntityBase`, inherited by every record derived from it. */
  const EntityAliases: map<string, string> := map[
    "author_id" := "authorId", "author_ids" := "authorIds", "created" := "dateCreated",
    "duration" := "time", "end_date" := "endDate", "filename" := "originalFileName",
    "image_url" := "imageUrl", "import_ids" := "importIds", "modified" := "dateModified",
    "mp3_url" := "mp3FilePath", "name" := "realName", "num_images" := "picturesQuantity",
    "num_tunes" := "tunesQuantity", "original_url" := "originalUrl", "party_id" := "partyId",
    "party_place" := "partyPlace", "start_date" := "startDate",
    "title_internal" := "internalTitle"]

  /** The aliases of `ImportID`. */
  const ImportIdAliases: map<string, string> := map[
    "zxaaa" := "3a", "demozoo" := "dzoo", "spectrumcomputing" := "sc",
    "worldofspectrum" := "wos", "vtrd" := "vt", "zxdemo" := "zxd", "speccy" := "swiki"]

  /** The aliases of the response envelope. */
  const ResponseAliases: map<string, string> := map[
    "data" := "responseData", "status" := "responseStatus", "total" := "totalAmount"]

  /** The fields of each record, in declaration order, and the JSON keys they are read
      from; a derived record's lists extend its base class's. */
  const EntityBaseFields: seq<string> := ["id", "title", "url", "created", "modified"]
  const EntityBaseKeys: seq<string> := ["id", "title", "url", "dateCreated", "dateModified"]
  const MediaOwnFields: seq<string> := ["party_id", "compo", "party_place", "author_ids",
    "tags", "type", "rating", "year", "description", "original_url"]
  const MediaOwnKeys: seq<string> := ["partyId", "compo", "partyPlace", "authorIds", "tags",
    "type", "rating", "year", "description", "originalUrl"]
  const TuneOwnFields: seq<string> := ["title_internal", "duration", "plays", "filename",
    "mp3_url"]
  const TuneOwnKeys: seq<string> := ["internalTitle", "time", "plays", "originalFileName",
    "mp3FilePath"]
  const ImageOwnFields: seq<string> := ["image_url", "views"]
  const ImageOwnKeys: seq<string> := ["imageUrl", "views"]
  const AuthorAliasOwnFields: seq<string> := ["author_id", "import_ids", "start_date",
    "end_date"]
  const AuthorAliasOwnKeys: seq<string> := ["authorId", "importIds", "startDate", "endDate"]
  const AuthorOwnFields: seq<string> := ["name", "country", "city", "num_images",
    "num_tunes", "aliases", "import_ids"]
  const AuthorOwnKeys: seq<string> := ["realName", "country", "city", "picturesQuantity",
    "tunesQuantity", "aliases", "importIds"]
  const ImportIdFields: seq<string> := ["zxaaa", "demozoo", "pouet", "spectrumcomputing",
    "worldofspectrum", "vtrd", "zxdemo", "speccy"]
  const ImportIdKeys: seq<string> := ["3a", "dzoo", "pouet", "sc", "wos", "vt", "zxd",
    "swiki"]
  const ResponseFields: seq<string> := ["status", "total", "start", "limit", "data"]
  const ResponseKeys: seq<string> := ["responseStatus", "totalAmount", "start", "limit",
    "responseData"]
  const MediaFields: seq<string> := EntityBaseFields + MediaOwnFields
  const MediaKeys: seq<string> := EntityBaseKeys + MediaOwnKeys
  const TuneFields: seq<string> := MediaFields + TuneOwnFields
  const TuneKeys: seq<string> := MediaKeys + TuneOwnKeys
  const ImageFields: seq<string> := MediaFields + ImageOwnFields
  const ImageKeys: seq<string> := MediaKeys + ImageOwnKeys
  const AuthorAliasFields: seq<string> := EntityBaseFields + AuthorAliasOwnFields
  const AuthorAliasKeys: seq<string> := EntityBaseKeys + AuthorAliasOwnKeys
  const AuthorFields: seq<string> := EntityBaseFields + AuthorOwnFields
  const AuthorKeys: seq<string> := EntityBaseKeys + AuthorOwnKeys

  /** The JSON key a field is read from: its alias when the table lists one, else its name. */
  function WireKey(aliases: map<string, string>, field: string): string
  {
    if field in aliases then aliases[field] else field
  }

  function WireKeys(aliases: map<string, string>, fields: seq<string>): (ks: seq<string>)
    ensures |ks| == |fields|
  {
    if |fields| == 0 then [] else [WireKey(aliases, fields[0])] + WireKeys(aliases, fields[1..])
  }

  lemma {:induction false} WireKeysIndex(aliases: map<string, string>, fields: seq<string>, i: nat)
    requires i < |fields|
    ensures WireKeys(aliases, fields)[i] == WireKey(aliases, fields[i])
  {
    if i > 0 {
      WireKeysIndex(aliases, fields[1..], i - 1);
    }
  }

  /** Field lists map to key lists position by position. */
  lemma {:induction false} WireKeysPointwise(aliases: map<string, string>, fields: seq<string>, keys: seq<string>)
    requires |fields| == |keys|
    requires forall i :: 0 <= i < |fields| ==> WireKey(aliases, fields[i]) == keys[i]
    ensures WireKeys(aliases, fields) == keys
  {
    if |fields| > 0 {
      WireKeysPointwise(aliases, fields[1..], keys[1..]);
      assert keys == [keys[0]] + keys[1..];
    }
  }

  predicate Pairwise(s: seq<string>)
  {
    forall i, j :: 0 <= i < j < |s| ==> s[i] != s[j]
  }

  /** `ImportID.pouet`, `Response.start` and `Response.limit` have no alias: they are read
      under their own names. */
  lemma UnaliasedFields()
    ensures WireKey(ImportIdAliases, "pouet") == "pouet"
    ensures WireKey(ResponseAliases, "start") == "start"
    ensures WireKey(ResponseAliases, "limit") == "limit"
    ensures forall f :: f in ImportIdFields && f !in ImportIdAliases ==> f == "pouet"
  {
    assert "pouet" !in ImportIdAliases;
    assert "start" !in ResponseAliases && "limit" !in ResponseAliases;
  }

  /** The field that a JSON key feeds: the first field whose wire key it is. */
  function FieldOfKey(aliases: map<string, string>, fields: seq<string>, key: string): (r: Option<string>)
    ensures r.Some? ==> r.value in fields && WireKey(aliases, r.value) == key
    ensures r.None? ==> key !in WireKeys(aliases, fields)
  {
    if |fields| == 0 then None
    else if WireKey(aliases, fields[0]) == key then Some(fields[0])
    else FieldOfKey(aliases, fields[1..], key)
  }

  /** When a record's wire keys are distinct, every field is found again from its own wire
      key, so reading the JSON object back by key is unambiguous. */
  lemma {:induction false} FieldOfKeyInverse(aliases: map<string, string>, fields: seq<string>, i: nat)
    requires Pairwise(WireKeys(aliases, fields)) && i < |fields|
    ensures FieldOfKey(aliases, fields, WireKey(aliases, fields[i])) == Some(fields[i])
  {
    var ks := WireKeys(aliases, fields);
    if i > 0 {
      var rest := WireKeys(aliases, fields[1..]);
      WireKeysIndex(aliases, fields, i);
      assert ks[0] != ks[i];
      assert forall a, b :: 0 <= a < b < |rest| ==> rest[a] == ks[a + 1] && rest[b] == ks[b + 1];
      FieldOfKeyInverse(aliases, fields[1..], i - 1);
      assert fields[1..][i - 1] == fields[i];
    }
  }

  lemma {:induction false} WireKeysAppend(aliases: map<string, string>, s: seq<string>, t: seq<string>)
    ensures WireKeys(aliases, s + t) == WireKeys(aliases, s) + WireKeys(aliases, t)
  {
    if |s| > 0 {
      assert (s + t)[0] == s[0] && (s + t)[1..] == s[1..] + t;
      WireKeysAppend(aliases, s[1..], t);
      assert [WireKey(aliases, s[0])] + (WireKeys(aliases, s[1..]) + WireKeys(aliases, t))
        == ([WireKey(aliases, s[0])] + WireKeys(aliases, s[1..])) + WireKeys(aliases, t);
    } else {
      assert s + t == t;
    }
  }

  /** A record whose every field is found again from its own wire key. */
  predicate Unambiguous(aliases: map<string, string>, fields: seq<string>)
  {
    forall i :: 0 <= i < |fields| ==> FieldOfKey(aliases, fields, WireKey(aliases, fields[i])) == Some(fields[i])
  }

  lemma PairwiseUnambiguous(aliases: map<string, string>, fields: seq<string>)
    requires Pairwise(WireKeys(aliases, fields))
    ensures Unambiguous(aliases, fields)
  {
    forall i | 0 <= i < |fields| {
      FieldOfKeyInverse(aliases, fields, i);
    }
  }

  // The alias tables applied to each record's own fields.

  lemma EntityBaseAliasFacts()
    ensures WireKey(EntityAliases, "id") == "id"
    ensures WireKey(EntityAliases, "title") == "title"
    ensures WireKey(EntityAliases, "url") == "url"
    ensures WireKey(EntityAliases, "created") == "dateCreated"
    ensures WireKey(EntityAliases, "modified") == "dateModified"
  {
  }

  lemma EntityBaseWireKeys()
    ensures WireKeys(EntityAliases, EntityBaseFields) == EntityBaseKeys
  {
    EntityBaseAliasFacts();
    WireKeysPointwise(EntityAliases, EntityBaseFields, EntityBaseKeys);
  }

  lemma MediaOwnAliasFactsFirst()
    ensures WireKey(EntityAliases, "party_id") == "partyId"
    ensures WireKey(EntityAliases, "compo") == "compo"
    ensures WireKey(EntityAliases, "party_place") == "partyPlace"
    ensures WireKey(EntityAliases, "author_ids") == "authorIds"
    ensures WireKey(EntityAliases, "tags") == "tags"
  {
  }

  lemma MediaOwnAliasFactsSecond()
    ensures WireKey(EntityAliases, "type") == "type"
    ensures WireKey(EntityAliases, "rating") == "rating"
    ensures WireKey(EntityAliases, "year") == "year"
    ensures WireKey(EntityAliases, "description") == "description"
    ensures WireKey(EntityAliases, "original_url") == "originalUrl"
  {
  }

  lemma MediaOwnWireKeys()
    ensures WireKeys(EntityAliases, MediaOwnFields) == MediaOwnKeys
  {
    MediaOwnAliasFactsFirst();
    MediaOwnAliasFactsSecond();
    WireKeysPointwise(EntityAliases, MediaOwnFields, MediaOwnKeys);
  }

  lemma TuneOwnAliasFacts()
    ensures WireKey(EntityAliases, "title_internal") == "internalTitle"
    ensures WireKey(EntityAliases, "duration") == "time"
    ensures WireKey(EntityAliases, "plays") == "plays"
    ensures WireKey(EntityAliases, "filename") == "originalFileName"
    ensures WireKey(EntityAliases, "mp3_url") == "mp3FilePath"
  {
  }

  lemma TuneOwnWireKeys()
    ensures WireKeys(EntityAliases, TuneOwnFields) == TuneOwnKeys
  {
    TuneOwnAliasFacts();
    WireKeysPointwise(EntityAliases, TuneOwnFields, TuneOwnKeys);
  }

  lemma ImageOwnAliasFacts()
    ensures WireKey(EntityAliases, "image_url") == "imageUrl"
    ensures WireKey(EntityAliases, "views") == "views"
  {
  }

  lemma ImageOwnWireKeys()
    ensures WireKeys(EntityAliases, ImageOwnFields) == ImageOwnKeys
  {
    ImageOwnAliasFacts();
    WireKeysPointwise(EntityAliases, ImageOwnFields, ImageOwnKeys);
  }

  lemma AuthorAliasOwnAliasFacts()
    ensures WireKey(EntityAliases, "author_id") == "authorId"
    ensures WireKey(EntityAliases, "import_ids") == "importIds"
    ensures WireKey(EntityAliases, "start_date") == "startDate"
    ensures WireKey(EntityAliases, "end_date") == "endDate"
  {
  }

  lemma AuthorAliasOwnWireKeys()
    ensures WireKeys(EntityAliases, AuthorAliasOwnFields) == AuthorAliasOwnKeys
  {
    AuthorAliasOwnAliasFacts();
    WireKeysPointwise(EntityAliases, AuthorAliasOwnFields, AuthorAliasOwnKeys);
  }

  lemma AuthorOwnAliasFactsFirst()
    ensures WireKey(EntityAliases, "name") == "realName"
    ensures WireKey(EntityAliases, "country") == "country"
    ensures WireKey(EntityAliases, "city") == "city"
    ensures WireKey(EntityAliases, "num_images") == "picturesQuantity"
    ensures WireKey(EntityAliases, "num_tunes") == "tunesQuantity"
  {
  }

  lemma AuthorOwnAliasFactsSecond()
    ensures WireKey(EntityAliases, "aliases") == "aliases"
    ensures WireKey(EntityAliases, "import_ids") == "importIds"
  {
  }

  lemma AuthorOwnWireKeys()
    ensures WireKeys(EntityAliases, AuthorOwnFields) == AuthorOwnKeys
  {
    AuthorOwnAliasFactsFirst();
    AuthorOwnAliasFactsSecond();
    WireKeysPointwise(EntityAliases, AuthorOwnFields, AuthorOwnKeys);
  }

  lemma ImportIdAliasFactsFirst()
    ensures WireKey(ImportIdAliases, "zxaaa") == "3a"
    ensures WireKey(ImportIdAliases, "demozoo") == "dzoo"
    ensures WireKey(ImportIdAliases, "pouet") == "pouet"
    ensures WireKey(ImportIdAliases, "spectrumcomputing") == "sc"
    ensures WireKey(ImportIdAliases, "worldofspectrum") == "wos"
  {
  }

  lemma ImportIdAliasFactsSecond()
    ensures WireKey(ImportIdAliases, "vtrd") == "vt"
    ensures WireKey(ImportIdAliases, "zxdemo") == "zxd"
    ensures WireKey(ImportIdAliases, "speccy") == "swiki"
  {
  }

  lemma ImportIdWireKeys()
    ensures WireKeys(ImportIdAliases, ImportIdFields) == ImportIdKeys
  {
    ImportIdAliasFactsFirst();
    ImportIdAliasFactsSecond();
    WireKeysPointwise(ImportIdAliases, ImportIdFields, ImportIdKeys);
  }

  lemma ResponseAliasFacts()
    ensures WireKey(ResponseAliases, "status") == "responseStatus"
    ensures WireKey(ResponseAliases, "total") == "totalAmount"
    ensures WireKey(ResponseAliases, "start") == "start"
    ensures WireKey(ResponseAliases, "limit") == "limit"
    ensures WireKey(ResponseAliases, "data") == "responseData"
  {
  }

  lemma ResponseWireKeys()
    ensures WireKeys(ResponseAliases, ResponseFields) == ResponseKeys
  {
    ResponseAliasFacts();
    WireKeysPointwise(ResponseAliases, ResponseFields, ResponseKeys);
  }

  // The JSON keys of each record, and why reading them back is unambiguous.

  /** The JSON keys of `Media`, in field order: the base keys, then its own. */
  lemma MediaWireKeys()
    ensures WireKeys(EntityAliases, MediaFields) == MediaKeys
  {
    WireKeysAppend(EntityAliases, EntityBaseFields, MediaOwnFields);
    EntityBaseWireKeys();
    MediaOwnWireKeys();
  }

  /** The JSON keys of `Tune`, in field order: those of `Media`, then its own. */
  lemma TuneWireKeys()
    ensures WireKeys(EntityAliases, TuneFields) == TuneKeys
  {
    WireKeysAppend(EntityAliases, MediaFields, TuneOwnFields);
    MediaWireKeys();
    TuneOwnWireKeys();
  }

  /** The JSON keys of `Image`, in field order: those of `Media`, then its own. */
  lemma ImageWireKeys()
    ensures WireKeys(EntityAliases, ImageFields) == ImageKeys
  {
    WireKeysAppend(EntityAliases, MediaFields, ImageOwnFields);
    MediaWireKeys();
    ImageOwnWireKeys();
  }

  /** The JSON keys of `AuthorAlias`, in field order: those of `EntityBase`, then its own. */
  lemma AuthorAliasWireKeys()
    ensures WireKeys(EntityAliases, AuthorAliasFields) == AuthorAliasKeys
  {
    WireKeysAppend(EntityAliases, EntityBaseFields, AuthorAliasOwnFields);
    EntityBaseWireKeys();
    AuthorAliasOwnWireKeys();
  }

  /** The JSON keys of `Author`, in field order: those of `EntityBase`, then its own. */
  lemma AuthorWireKeys()
    ensures WireKeys(EntityAliases, AuthorFields) == AuthorKeys
  {
    WireKeysAppend(EntityAliases, EntityBaseFields, AuthorOwnFields);
    EntityBaseWireKeys();
    AuthorOwnWireKeys();
  }

  /** No two fields of `Tune` share a JSON key, so every field is found again from its key. */
  lemma TuneUnambiguous()
    ensures Pairwise(WireKeys(EntityAliases, TuneFields))
    ensures Unambiguous(EntityAliases, TuneFields)
  {
    TuneWireKeys();
    TuneKeysDistinct();
    PairwiseUnambiguous(EntityAliases, TuneFields);
  }

  lemma TuneKeysDistinct()
    ensures Pairwise(TuneKeys)
  {
  }

  /** No two fields of `Image` share a JSON key, so every field is found again from its key. */
  lemma ImageUnambiguous()
    ensures Pairwise(WireKeys(EntityAliases, ImageFields))
    ensures Unambiguous(EntityAliases, ImageFields)
  {
    ImageWireKeys();
    ImageKeysDistinct();
    PairwiseUnambiguous(EntityAliases, ImageFields);
  }

  lemma ImageKeysDistinct()
    ensures Pairwise(ImageKeys)
  {
  }

  /** No two fields of `AuthorAlias` share a JSON key, so every field is found again from its key. */
  lemma AuthorAliasUnambiguous()
    ensures Pairwise(WireKeys(EntityAliases, AuthorAliasFields))
    ensures Unambiguous(EntityAliases, AuthorAliasFields)
  {
    AuthorAliasWireKeys();
    AuthorAliasKeysDistinct();
    PairwiseUnambiguous(EntityAliases, AuthorAliasFields);
  }

  lemma AuthorAliasKeysDistinct()
    ensures Pairwise(AuthorAliasKeys)
  {
  }

  /** No two fields of `Author` share a JSON key, so every field is found again from its key. */
  lemma AuthorUnambiguous()
    ensures Pairwise(WireKeys(EntityAliases, AuthorFields))
    ensures Unambiguous(EntityAliases, AuthorFields)
  {
    AuthorWireKeys();
    AuthorKeysDistinct();
    PairwiseUnambiguous(EntityAliases, AuthorFields);
  }

  lemma AuthorKeysDistinct()
    ensures Pairwise(AuthorKeys)
  {
  }

  /** No two fields of `ImportId` share a JSON key, so every field is found again from its key. */
  lemma ImportIdUnambiguous()
    ensures Pairwise(WireKeys(ImportIdAliases, ImportIdFields))
    ensures Unambiguous(ImportIdAliases, ImportIdFields)
  {
    ImportIdWireKeys();
    ImportIdKeysDistinct();
    PairwiseUnambiguous(ImportIdAliases, ImportIdFields);
  }

  lemma ImportIdKeysDistinct()
    ensures Pairwise(ImportIdKeys)
  {
  }

  /** No two fields of `Response` share a JSON key, so every field is found again from its key. */
  lemma ResponseUnambiguous()
    ensures Pairwise(WireKeys(ResponseAliases, ResponseFields))
    ensures Unambiguous(ResponseAliases, ResponseFields)
  {
    ResponseWireKeys();
    ResponseKeysDistinct();
    PairwiseUnambiguous(ResponseAliases, ResponseFields);
  }

  lemma ResponseKeysDistinct()
    ensures Pairwise(ResponseKeys)
  {
  }

  // ---------------------------------------------------------------------------
  // Records

  /** A calendar date (`dd.mm.yyyy` on the wire). */
  datatype Date = Date(year: int, month: int, day: int)

  datatype ProductCategory = ProductCategory(id: int, title: string)

  /** The fields every entity shares; timestamps are seconds since the epoch. */
  datatype EntityBase = EntityBase(id: int, title: Option<string>, url: string, created: int, modified: int)

  /** The fields every media record shares (`type` is named `fileType` here). */
  datatype Media = Media(
    base: EntityBase, partyId: Option<int>, compo: Option<string>, partyPlace: Option<int>,
    authorIds: seq<int>, tags: Option<seq<string>>, fileType: Option<string>, rating: real,
    year: Option<int>, description: Option<string>, originalUrl: Option<string>)

  /** A tune; its duration is in seconds. */
  datatype Tune = Tune(
    media: Media, titleInternal: Option<string>, duration: Option<real>, plays: Option<int>,
    filename: Option<string>, mp3Url: Option<string>)

  datatype Image = Image(media: Media, imageUrl: Option<string>, views: Option<int>)

  datatype ImportId = ImportId(
    zxaaa: Option<string>, demozoo: Option<string>, pouet: Option<string>,
    spectrumcomputing: Option<string>, worldofspectrum: Option<string>, vtrd: Option<string>,
    zxdemo: Option<string>, speccy: Option<string>)

  datatype AuthorAlias = AuthorAlias(
    base: EntityBase, authorId: Option<int>, importIds: Option<ImportId>,
    startDate: Option<Date>, endDate: Option<Date>)

  datatype Author = Author(
    base: EntityBase, name: Option<string>, country: Option<string>, city: Option<string>,
    numImages: int, numTunes: int, aliases: Option<seq<int>>, importIds: Option<ImportId>)

  /** A count of an author's JSON object: read under the field's wire key, 0 when absent. */
  function AuthorCount(counts: map<string, int>, field: string): int
  {
    var key := WireKey(EntityAliases, field);
    if key in counts then counts[key] else 0
  }

  /** An author without `picturesQuantity` or `tunesQuantity` has no images or tunes; a
      count is read only under its wire key, never under the field's own name. */
  lemma AuthorCountDefaults(counts: map<string, int>, v: int)
    ensures "picturesQuantity" !in counts ==> AuthorCount(counts, "num_images") == 0
    ensures "tunesQuantity" !in counts ==> AuthorCount(counts, "num_tunes") == 0
    ensures "picturesQuantity" in counts ==> AuthorCount(counts, "num_images") == counts["picturesQuantity"]
    ensures "tunesQuantity" in counts ==> AuthorCount(counts, "num_tunes") == counts["tunesQuantity"]
    ensures AuthorCount(counts["num_images" := v], "num_images") == AuthorCount(counts, "num_images")
    ensures AuthorCount(counts["num_tunes" := v], "num_tunes") == AuthorCount(counts, "num_tunes")
  {
    assert WireKey(EntityAliases, "num_images") == "picturesQuantity";
    assert WireKey(EntityAliases, "num_tunes") == "tunesQuantity";
  }

  // ---------------------------------------------------------------------------
  // The response envelope

  /** One optional list per entity kind, each named as the kind is on the wire. */
  datatype ResponseData = ResponseData(
    author: Option<seq<Author>>, authorAlias: Option<seq<AuthorAlias>>,
    group: Option<seq<Author>>, groupAlias: Option<seq<Author>>, zxMusic: Option<seq<Tune>>,
    zxProd: Option<seq<Author>>, zxRelease: Option<seq<Author>>, zxPicture: Option<seq<Image>>,
    zxProdCategory: Option<seq<ProductCategory>>)

  const ResponseDataFields: seq<string> := [
    "author", "authorAlias", "group", "groupAlias", "zxMusic", "zxProd", "zxRelease",
    "zxPicture", "zxProdCategory"]

  /** A list of records of any kind. */
  datatype Records =
    | Authors(authors: seq<Author>)
    | AuthorAliases(authorAliases: seq<AuthorAlias>)
    | Tunes(tunes: seq<Tune>)
    | Images(images: seq<Image>)
    | Categories(categories: seq<ProductCategory>)

  function AuthorList(o: Option<seq<Author>>): Option<Records>
  {
    match o
    case None => None
    case Some(xs) => Some(Authors(xs))
  }

  /** `getattr(data, name)`: the field of that name, or `AttributeError`. */
  function Attribute(data: ResponseData, name: string): Result<Option<Records>>
  {
    if name == "author" then Success(AuthorList(data.author))
    else if name == "authorAlias" then
      Success(if data.authorAlias.Some? then Some(AuthorAliases(data.authorAlias.value)) else None)
    else if name == "group" then Success(AuthorList(data.group))
    else if name == "groupAlias" then Success(AuthorList(data.groupAlias))
    else if name == "zxMusic" then
      Success(if data.zxMusic.Some? then Some(Tunes(data.zxMusic.value)) else None)
    else if name == "zxProd" then Success(AuthorList(data.zxProd))
    else if name == "zxRelease" then Success(AuthorList(data.zxRelease))
    else if name == "zxPicture" then
      Success(if data.zxPicture.Some? then Some(Images(data.zxPicture.value)) else None)
    else if name == "zxProdCategory" then
      Success(if data.zxProdCategory.Some? then Some(Categories(data.zxProdCategory.value)) else None)
    else Failure(AttributeError(name))
  }

  /** The list of one entity kind, `None` when the server omitted it. */
  function Select(data: ResponseData, e: Common.Entity): Option<Records>
  {
    match e
    case Author => AuthorList(data.author)
    case AuthorAlias => if data.authorAlias.Some? then Some(AuthorAliases(data.authorAlias.value)) else None
    case Group => AuthorList(data.group)
    case GroupAlias => AuthorList(data.groupAlias)
    case Product => AuthorList(data.zxProd)
    case ProductCategory =>
      if data.zxProdCategory.Some? then Some(Categories(data.zxProdCategory.value)) else None
    case Release => AuthorList(data.zxRelease)
    case Image => if data.zxPicture.Some? then Some(Images(data.zxPicture.value)) else None
    case Tune => if data.zxMusic.Some? then Some(Tunes(data.zxMusic.value)) else None
  }

  /** Looking up the entity's wire name never fails and gives that entity's list. */
  lemma SelectByName(data: ResponseData, e: Common.Entity)
    ensures Attribute(data, Common.EntityName(e)) == Success(Select(data, e))
  {
    match e
    case Author =>
    case AuthorAlias =>
    case Group =>
    case GroupAlias =>
    case Product =>
    case ProductCategory =>
    case Release =>
    case Image =>
    case Tune =>
  }

  /** The fields of `ResponseData` are exactly the wire names of the entity kinds. */
  lemma ResponseDataFieldsAreEntities(name: string)
    ensures name in ResponseDataFields <==> Common.EntityFromName(name).Some?
    ensures (forall data :: Attribute(data, name).Success?) <==> name in ResponseDataFields
  {
    var empty := ResponseData(None, None, None, None, None, None, None, None, None);
    assert Attribute(empty, name).Success? <==> name in ResponseDataFields;
  }

  /** Whatever the other lists hold, an entity's list is `None` exactly when the server
      omitted it (it is not turned into an empty one), and is otherwise the list sent. */
  lemma SelectOmitted(data: ResponseData)
    ensures Select(data, Common.Author) == None <==> data.author.None?
    ensures data.author.Some? ==> Select(data, Common.Author) == Some(Authors(data.author.value))
    ensures Select(data, Common.AuthorAlias) == None <==> data.authorAlias.None?
    ensures data.authorAlias.Some? ==> Select(data, Common.AuthorAlias) == Some(AuthorAliases(data.authorAlias.value))
    ensures Select(data, Common.Group) == None <==> data.group.None?
    ensures data.group.Some? ==> Select(data, Common.Group) == Some(Authors(data.group.value))
    ensures Select(data, Common.GroupAlias) == None <==> data.groupAlias.None?
    ensures data.groupAlias.Some? ==> Select(data, Common.GroupAlias) == Some(Authors(data.groupAlias.value))
    ensures Select(data, Common.Product) == None <==> data.zxProd.None?
    ensures data.zxProd.Some? ==> Select(data, Common.Product) == Some(Authors(data.zxProd.value))
    ensures Select(data, Common.ProductCategory) == None <==> data.zxProdCategory.None?
    ensures data.zxProdCategory.Some? ==> Select(data, Common.ProductCategory) == Some(Categories(data.zxProdCategory.value))
    ensures Select(data, Common.Release) == None <==> data.zxRelease.None?
    ensures data.zxRelease.Some? ==> Select(data, Common.Release) == Some(Authors(data.zxRelease.value))
    ensures Select(data, Common.Image) == None <==> data.zxPicture.None?
    ensures data.zxPicture.Some? ==> Select(data, Common.Image) == Some(Images(data.zxPicture.value))
    ensures Select(data, Common.Tune) == None <==> data.zxMusic.None?
    ensures data.zxMusic.Some? ==> Select(data, Common.Tune) == Some(Tunes(data.zxMusic.value))
  {
  }

  /** The envelope as read from JSON, before its status is checked. */
  datatype Envelope = Envelope(status: string, total: int, start: int, limit: int, data: ResponseData)

  /** A decoded response; its status was `"success"`. */
  datatype Response = Response(total: int, start: int, limit: int, data: ResponseData)

  /** The `Literal["success"]` check of the status field. */
  function Decode(env: Envelope): Result<Response>
  {
    if env.status == "success" then Success(Response(env.total, env.start, env.limit, env.data))
    else Failure(InvalidStatus(env.status))
  }

  function Encode(r: Response): Envelope
  {
    Envelope("success", r.total, r.start, r.limit, r.data)
  }

  /** A response decodes exactly when its status is `"success"`, and then nothing else is
      lost: encoding it again gives back the envelope. */
  lemma DecodeStatus(env: Envelope)
    ensures Decode(env).Success? <==> env.status == "success"
    ensures Decode(env).Failure? ==> Decode(env).error == InvalidStatus(env.status)
    ensures Decode(env).Success? ==> Encode(Decode(env).value) == env
  {
  }

  lemma DecodeEncode(r: Response)
    ensures Decode(Encode(r)) == Success(r)
  {
  }
}
