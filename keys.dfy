/**
 * Everything the API client computes before it touches the cache or the
 * network: the language default, cache keys (including the order-independent
 * filter key and the batch key), time-to-live tiers and request bodies.
 */
module Keys {
  import opened Wrappers
  import opened Json
  import opened Text
  import opened Sorting
  import opened Cache
  import Auth

  /** Time-to-live of search results (`cache_ttl`). */
  const CacheTtl: int := 3600
  /** Time-to-live of entity details (`cache_class_ttl`). */
  const CacheClassTtl: int := 86400
  /** Time-to-live of language and release lists (`cache_languages_ttl`). */
  const CacheLanguagesTtl: int := 604800

  /** `language or default`: a missing or empty language falls back to the default. */
  function Language(language: Option<string>, default: string): (lang: string)
    ensures language.Some? && language.value != "" ==> lang == language.value
    ensures language.None? || language.value == "" ==> lang == default
  {
    if language.Some? && language.value != "" then language.value else default
  }

  function OptBool(b: Option<bool>): Arg { if b.Some? then Bool(b.value) else Null }
  function OptInt(i: Option<int>): Arg { if i.Some? then Int(i.value) else Null }

  // ---------------------------------------------------------------------
  // Search filters and their canonical key

  /** One search filter: a filter code and the values it admits. */
  datatype Filter = Filter(code: string, values: seq<string>)

  function CodeOf(f: Filter): string { f.code }
  function Id(s: string): string { s }

  /** `f"{code}:{','.join(sorted(values))}"`. */
  function FilterEntry(f: Filter): string
  {
    f.code + ":" + Join(",", SortBy(f.values, Id))
  }

  function FilterEntries(fs: seq<Filter>): (entries: seq<string>)
    ensures |entries| == |fs|
    ensures forall i | 0 <= i < |fs| :: entries[i] == FilterEntry(fs[i])
  {
    if fs == [] then [] else [FilterEntry(fs[0])] + FilterEntries(fs[1..])
  }

  /**
   * The filter component of the search key: `None` without filters, else the
   * tuple of entries of the filters sorted (stably) by code.
   */
  function FilterKey(filters: seq<Filter>): Arg
  {
    if filters == [] then Null else Tuple(FilterEntries(SortBy(filters, CodeOf)))
  }

  /** Same code and the same values in any order: same entry. */
  lemma FilterEntryIgnoresValueOrder(f: Filter, g: Filter)
    requires f.code == g.code && multiset(f.values) == multiset(g.values)
    ensures FilterEntry(f) == FilterEntry(g)
  {
    SortByPermutationInvariant(f.values, g.values, Id);
  }

  /** `fs` and `gs` list the same codes in the same order, each with its values permuted. */
  ghost predicate ValuesPermuted(fs: seq<Filter>, gs: seq<Filter>)
  {
    |fs| == |gs| &&
    forall i | 0 <= i < |fs| :: fs[i].code == gs[i].code && multiset(fs[i].values) == multiset(gs[i].values)
  }

  /** No two filters share a code. */
  ghost predicate CodesDistinct(fs: seq<Filter>)
  {
    forall i, j | 0 <= i < j < |fs| :: fs[i].code != fs[j].code
  }

  /** Reordering the values inside filters does not change the filter key. */
  lemma FilterKeyIgnoresValueOrder(fs: seq<Filter>, gs: seq<Filter>)
    requires ValuesPermuted(fs, gs)
    ensures FilterKey(fs) == FilterKey(gs)
  {
    if fs != [] {
      forall i | 0 <= i < |fs|
        ensures FilterEntry(fs[i]) == FilterEntry(gs[i])
      {
        FilterEntryIgnoresValueOrder(fs[i], gs[i]);
      }
      assert Aligned(fs, gs, CodeOf, FilterEntry);
      SortByAligned(fs, gs, CodeOf, FilterEntry);
      var sf, sg := SortBy(fs, CodeOf), SortBy(gs, CodeOf);
      assert FilterEntries(sf) == FilterEntries(sg);
    }
  }

  /** Reordering filters with distinct codes does not change the filter key. */
  lemma FilterKeyIgnoresFilterOrder(fs: seq<Filter>, gs: seq<Filter>)
    requires multiset(fs) == multiset(gs)
    requires CodesDistinct(fs)
    ensures FilterKey(fs) == FilterKey(gs)
  {
    assert |fs| == |gs| by { assert |multiset(fs)| == |multiset(gs)|; }
    forall x, y | x in fs && y in fs && CodeOf(x) == CodeOf(y)
      ensures x == y
    {
      var i :| 0 <= i < |fs| && fs[i] == x;
      var j :| 0 <= j < |fs| && fs[j] == y;
      assert forall a, b | 0 <= a < |fs| && 0 <= b < |fs| && fs[a].code == fs[b].code :: a == b;
      assert fs[i].code == fs[j].code;
    }
    SortByPermutationInvariant(fs, gs, CodeOf);
  }

  // ---------------------------------------------------------------------
  // Batch class references

  /** A class requested in a batch: its code and, optionally, a version. */
  datatype ClassRef = ClassRef(code: string, version: Option<int>)

  /** `f"{code}:{version}"`, the version defaulting to `latest`. */
  function ClassRefText(c: ClassRef): string
  {
    c.code + ":" + (if c.version.Some? then IntToString(c.version.value) else "latest")
  }

  function ClassRefTexts(cs: seq<ClassRef>): (texts: seq<string>)
    ensures |texts| == |cs|
    ensures forall i | 0 <= i < |cs| :: texts[i] == ClassRefText(cs[i])
  {
    if cs == [] then [] else [ClassRefText(cs[0])] + ClassRefTexts(cs[1..])
  }

  function ClassRefJson(c: ClassRef): Json
  {
    var m := map["code" := JStr(c.code)];
    JObj(if c.version.Some? then m["version" := JNum(c.version.value)] else m)
  }

  function ClassRefsJson(cs: seq<ClassRef>): (j: Json)
    ensures j.JArr? && |j.items| == |cs|
    ensures forall i | 0 <= i < |cs| :: j.items[i] == ClassRefJson(cs[i])
  {
    if cs == [] then JArr([]) else JArr([ClassRefJson(cs[0])] + ClassRefsJson(cs[1..]).items)
  }

  // ---------------------------------------------------------------------
  // Cache keys, one per endpoint

  function SearchClassesKey(text: string, lang: string, modelling: Option<bool>,
                            filters: seq<Filter>, from: int, size: int): string
  {
    GenerateKey("search:class", [Str(text), Str(lang), OptBool(modelling), FilterKey(filters), Int(from), Int(size)])
  }

  function ClassDetailsKey(code: string, version: Option<int>, lang: string, includeFeatures: bool): string
  {
    GenerateKey("class", [Str(code), OptInt(version), Str(lang), Bool(includeFeatures)])
  }

  function ClassDetailsManyKey(classes: seq<ClassRef>, lang: string, includeFeatures: bool): string
  {
    GenerateKey("class:many", [Tuple(ClassRefTexts(classes)), Str(lang), Bool(includeFeatures)])
  }

  /** Key of a plain paged search (`search:feature`, `search:group`, `search:featuregroup`). */
  function SearchKey(prefix: string, text: string, lang: string, from: int, size: int): string
  {
    GenerateKey(prefix, [Str(text), Str(lang), Int(from), Int(size)])
  }

  /** Key of a search that can include deprecated entries (`search:value`, `search:unit`). */
  function DeprecatedSearchKey(prefix: string, text: string, lang: string, deprecated: bool, from: int, size: int): string
  {
    GenerateKey(prefix, [Str(text), Str(lang), Bool(deprecated), Int(from), Int(size)])
  }

  /** Key of a plain detail lookup (`feature`, `value`, `unit`, `featuregroup`). */
  function CodeKey(prefix: string, code: string, lang: string): string
  {
    GenerateKey(prefix, [Str(code), Str(lang)])
  }

  function ClassVersionsKey(code: string, lang: string, includeFeatures: bool): string
  {
    GenerateKey("class:allversions", [Str(code), Str(lang), Bool(includeFeatures)])
  }

  function ClassForReleaseKey(code: string, release: string, lang: string, includeFeatures: bool): string
  {
    GenerateKey("class:release", [Str(code), Str(release), Str(lang), Bool(includeFeatures)])
  }

  function GroupDetailsKey(code: string, lang: string, includeReleases: bool): string
  {
    GenerateKey("group", [Str(code), Str(lang), Bool(includeReleases)])
  }

  function ClassDiffKey(code: string, version: int, lang: string): string
  {
    GenerateKey("class:diff", [Str(code), Int(version), Str(lang)])
  }

  const AllowedLanguagesKey: string := "languages:allowed"
  const ReleasesKey: string := "releases"
  const AllLanguagesKey: string := "languages:all"

  /**
   * The search key is canonical: permuting the values inside filters, and
   * then permuting filters whose codes are distinct, leaves it unchanged.
   */
  lemma SearchClassesKeyCanonical(text: string, lang: string, modelling: Option<bool>,
                                  fs: seq<Filter>, hs: seq<Filter>, gs: seq<Filter>, from: int, size: int)
    requires ValuesPermuted(fs, hs)
    requires multiset(hs) == multiset(gs) && CodesDistinct(hs)
    ensures SearchClassesKey(text, lang, modelling, fs, from, size)
         == SearchClassesKey(text, lang, modelling, gs, from, size)
  {
    FilterKeyIgnoresValueOrder(fs, hs);
    FilterKeyIgnoresFilterOrder(hs, gs);
  }

  lemma ClassRefTextLatest(c: ClassRef)
    requires c.version.None?
    ensures ClassRefText(c) == c.code + ":latest"
  {
    assert ":" + "latest" == ":latest";
    assert c.code + ":" + "latest" == c.code + (":" + "latest");
  }

  /** In a batch key a class without a version reads `code:latest`. */
  lemma BatchEntryDefaultsToLatest(classes: seq<ClassRef>, i: nat)
    requires i < |classes| && classes[i].version.None?
    ensures ClassRefTexts(classes)[i] == classes[i].code + ":latest"
  {
    ClassRefTextLatest(classes[i]);
  }

  /** The batch key is `class:many`, the tuple of class texts, the language and the flag, joined by `:`. */
  lemma ClassDetailsManyKeyShape(classes: seq<ClassRef>, lang: string, includeFeatures: bool)
    ensures ClassDetailsManyKey(classes, lang, includeFeatures)
         == "class:many" + ":" + TupleToString(ClassRefTexts(classes)) + ":" + lang + ":" + BoolToString(includeFeatures)
  {
    var t, l, f := Tuple(ClassRefTexts(classes)), Str(lang), Bool(includeFeatures);
    GenerateKeySnoc("class:many", [], t);
    assert [] + [t] == [t];
    GenerateKeySnoc("class:many", [t], l);
    GenerateKeySnoc("class:many", [t, l], f);
    assert [t] + [l] == [t, l] && [t, l] + [f] == [t, l, f];
  }

  /** No response key can overwrite the token slot. */
  lemma ResponseKeysAvoidTokenSlot(prefix: string, args: seq<Arg>)
    requires prefix in ["search:class", "class", "class:many", "search:feature", "search:group",
                        "search:featuregroup", "search:value", "search:unit", "feature", "value",
                        "unit", "featuregroup", "class:allversions", "class:release", "group", "class:diff"]
    ensures GenerateKey(prefix, args) != Auth.TokenCacheKey
    ensures AllowedLanguagesKey != Auth.TokenCacheKey && ReleasesKey != Auth.TokenCacheKey
    ensures AllLanguagesKey != Auth.TokenCacheKey
  {
    var key := GenerateKey(prefix, args);
    assert key[0] == prefix[0];
    assert Auth.TokenCacheKey[0] == 'e';
  }

  // ---------------------------------------------------------------------
  // Request bodies

  /** The `include` object: descriptions always, translations and fields when asked. */
  function IncludeJson(translations: bool, fields: Option<seq<string>>): Json
  {
    var d := map["descriptions" := JBool(true)];
    var dt := if translations then d["translations" := JBool(true)] else d;
    JObj(if fields.Some? then dt["fields" := StrArray(fields.value)] else dt)
  }

  /** Fields requested by the batch, all-versions and per-release class lookups. */
  function ReleaseFields(includeFeatures: bool): seq<string>
  {
    if includeFeatures then ["Features", "Group", "Releases"] else ["Group", "Releases"]
  }

  function FilterJson(f: Filter): Json
  {
    JObj(map["code" := JStr(f.code), "values" := StrArray(f.values)])
  }

  function FiltersJson(fs: seq<Filter>): (j: Json)
    ensures j.JArr? && |j.items| == |fs|
    ensures forall i | 0 <= i < |fs| :: j.items[i] == FilterJson(fs[i])
  {
    if fs == [] then JArr([]) else JArr([FilterJson(fs[0])] + FiltersJson(fs[1..]).items)
  }

  /** The fields every paged search sends. */
  function SearchFields(text: string, lang: string, from: int, size: int): map<string, Json>
  {
    map["languagecode" := JStr(lang), "from" := JNum(from), "size" := JNum(size), "searchString" := JStr(text)]
  }

  /**
   * The class search body: `modelling` only when given, `filters` (in the
   * caller's order, unsorted) only when there are any.
   */
  function SearchClassesBody(text: string, lang: string, from: int, size: int,
                             modelling: Option<bool>, filters: seq<Filter>): (body: Json)
    ensures body.JObj?
    ensures "modelling" in body.fields <==> modelling.Some?
    ensures modelling.Some? ==> body.fields["modelling"] == JBool(modelling.value)
    ensures "filters" in body.fields <==> filters != []
    ensures filters != [] ==> body.fields["filters"] == FiltersJson(filters)
    ensures "searchString" in body.fields && body.fields["searchString"] == JStr(text)
    ensures "languagecode" in body.fields && body.fields["languagecode"] == JStr(lang)
  {
    var m := SearchFields(text, lang, from, size);
    var m1 := if modelling.Some? then m["modelling" := JBool(modelling.value)] else m;
    JObj(if filters != [] then m1["filters" := FiltersJson(filters)] else m1)
  }

  /**
   * The class details body: `version` only when given; descriptions and
   * translations always; fields `Features, Group` or just `Group`.
   */
  function ClassDetailsBody(code: string, version: Option<int>, lang: string, includeFeatures: bool): (body: Json)
    ensures body.JObj? && "code" in body.fields && "languagecode" in body.fields && "include" in body.fields
    ensures body.fields["code"] == JStr(code) && body.fields["languagecode"] == JStr(lang)
    ensures "version" in body.fields <==> version.Some?
    ensures version.Some? ==> body.fields["version"] == JNum(version.value)
    ensures body.fields["include"] ==
      IncludeJson(true, Some(if includeFeatures then ["Features", "Group"] else ["Group"]))
  {
    var m := map["languagecode" := JStr(lang), "code" := JStr(code)];
    var m1 := if version.Some? then m["version" := JNum(version.value)] else m;
    JObj(m1["include" := IncludeJson(true, Some(if includeFeatures then ["Features", "Group"] else ["Group"]))])
  }

  function ClassDetailsManyBody(classes: seq<ClassRef>, lang: string, includeFeatures: bool): Json
  {
    JObj(map["classes" := ClassRefsJson(classes), "languagecode" := JStr(lang),
             "include" := IncludeJson(true, Some(ReleaseFields(includeFeatures)))])
  }

  /** Body of a plain paged search; feature-group search also asks for descriptions. */
  function SearchBody(text: string, lang: string, from: int, size: int, withDescriptions: bool): Json
  {
    var m := SearchFields(text, lang, from, size);
    JObj(if withDescriptions then m["include" := IncludeJson(false, None)] else m)
  }

  function DeprecatedSearchBody(text: string, lang: string, deprecated: bool, from: int, size: int): Json
  {
    JObj(SearchFields(text, lang, from, size)["deprecated" := JBool(deprecated)]["include" := IncludeJson(false, None)])
  }

  /** Body of a plain detail lookup; all but feature details also ask for translations. */
  function CodeBody(code: string, lang: string, translations: bool): Json
  {
    JObj(map["languagecode" := JStr(lang), "code" := JStr(code), "include" := IncludeJson(translations, None)])
  }

  function ClassVersionsBody(code: string, lang: string, includeFeatures: bool): Json
  {
    JObj(map["code" := JStr(code), "languagecode" := JStr(lang),
             "include" := IncludeJson(true, Some(ReleaseFields(includeFeatures)))])
  }

  function ClassForReleaseBody(code: string, release: string, lang: string, includeFeatures: bool): Json
  {
    JObj(map["code" := JStr(code), "release" := JStr(release), "languagecode" := JStr(lang),
             "include" := IncludeJson(true, Some(ReleaseFields(includeFeatures)))])
  }

  function GroupDetailsBody(code: string, lang: string, includeReleases: bool): Json
  {
    JObj(map["languagecode" := JStr(lang), "code" := JStr(code),
             "include" := IncludeJson(true, if includeReleases then Some(["Releases"]) else None)])
  }

  function ClassDiffBody(code: string, version: int, lang: string): Json
  {
    JObj(map["languagecode" := JStr(lang), "code" := JStr(code), "version" := JNum(version),
             "include" := IncludeJson(true, Some(["Group", "Releases", "Features"]))])
  }
}
