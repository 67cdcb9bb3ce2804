/**
 * The translation lookup of the language provider: `getPath` walks a locale
 * dictionary along the segments of a dotted key, and `t` looks a key up in the
 * current language, falls back to English, then to the caller's fallback or the
 * key itself, and finally checks the found value loosely against the
 * fallback's type. The two dictionaries are parameters: their contents are not
 * part of this model.
 */
module I18n {
  import opened Options
  import opened Json
  import Strings

  datatype Lang = En | Ro

  /** The language consulted when the current one has no entry. */
  const FallbackLang: Lang := En

  /** `dicts[lang]`. */
  function Dict(lang: Lang, en: Json, ro: Json): Json
  {
    match lang
    case En => en
    case Ro => ro
  }

  /** One step of the walk: the child named `p`, if `cur` is a truthy object having it as own key. */
  function Step(cur: Json, p: string): Option<Json>
  {
    if IsObjectLike(cur) then Member(cur, p) else None
  }

  /** The value reached by walking `path` from `obj`, or `None` as soon as a step fails. */
  function PathValue(obj: Json, path: seq<string>): Option<Json>
    decreases |path|
  {
    if |path| == 0 then Some(obj)
    else
      match Step(obj, path[0])
      case None => None
      case Some(child) => PathValue(child, path[1..])
  }

  /** `getPath(obj, path)`: the source's `for` loop, which reassigns `cur` and returns early. */
  method GetPath(obj: Json, path: seq<string>) returns (r: Option<Json>)
    ensures r == PathValue(obj, path)
  {
    var cur := obj;
    for i := 0 to |path|
      invariant PathValue(obj, path) == PathValue(cur, path[i..])
    {
      var p := path[i];
      if IsObjectLike(cur) && Member(cur, p).Some? {
        cur := Member(cur, p).value;
      } else {
        return None;
      }
    }
    return Some(cur);
  }

  lemma PathValueEmpty(obj: Json)
    ensures PathValue(obj, []) == Some(obj)
  {
  }

  /** A walk fails at the first segment that is not an own key of a truthy object, and descends one level otherwise. */
  lemma PathValueStep(obj: Json, p: string, rest: seq<string>)
    ensures !IsObjectLike(obj) || Member(obj, p).None? ==> PathValue(obj, [p] + rest) == None
    ensures IsObjectLike(obj) && Member(obj, p).Some? ==>
              PathValue(obj, [p] + rest) == PathValue(Member(obj, p).value, rest)
  {
    assert ([p] + rest)[1..] == rest;
  }

  /** Walking `p + q` is walking `p`, then walking `q` from where `p` ended; a failed prefix fails the whole walk. */
  lemma {:induction false} PathValueAppend(obj: Json, p: seq<string>, q: seq<string>)
    ensures PathValue(obj, p + q) == match PathValue(obj, p)
                                     case None => None
                                     case Some(mid) => PathValue(mid, q)
    decreases |p|
  {
    if |p| == 0 {
      assert p + q == q;
    } else {
      assert (p + q)[1..] == p[1..] + q;
      assert (p + q)[0] == p[0];
      match Step(obj, p[0])
      case None =>
      case Some(child) => PathValueAppend(child, p[1..], q);
    }
  }

  /** `fallback ?? key`: the caller's fallback unless it is `null` or `undefined`, else the key itself. */
  function FallbackOrKey(key: string, fallback: Option<Json>): Json
  {
    if fallback.None? || fallback.value.Null? then Str(key) else fallback.value
  }

  /**
   * The loose type check applied when a value was found and a fallback given:
   * an array fallback demands an array, a non-null object fallback a truthy
   * object, and any other fallback (null included) the same `typeof`. A value
   * that fails the check is replaced by the fallback.
   */
  function MatchType(found: Json, fallback: Json): (r: Json)
    ensures r == found || r == fallback
    ensures TypeOf(r) == TypeOf(fallback)
    ensures fallback.Arr? ==> (found.Arr? ==> r == found) && (!found.Arr? ==> r == fallback)
    ensures fallback.Obj? ==> (IsObjectLike(found) ==> r == found) && (!IsObjectLike(found) ==> r == fallback)
    ensures !fallback.Arr? && !fallback.Obj? ==>
              (TypeOf(found) == TypeOf(fallback) ==> r == found) &&
              (TypeOf(found) != TypeOf(fallback) ==> r == fallback)
  {
    if fallback.Arr? then
      (if found.Arr? then found else fallback)
    else if TypeOf(fallback) == TObject && !fallback.Null? then
      (if IsObjectLike(found) then found else fallback)
    else
      (if TypeOf(found) == TypeOf(fallback) then found else fallback)
  }

  /** The result of the two dictionary lookups: current language first, English only if that missed. */
  function Found(lang: Lang, en: Json, ro: Json, parts: seq<string>): Option<Json>
  {
    var cur := PathValue(Dict(lang, en, ro), parts);
    if cur.None? && lang != FallbackLang then PathValue(Dict(FallbackLang, en, ro), parts) else cur
  }

  /** `t(key, fallback)` in language `lang` over the English and Romanian dictionaries. */
  function Translate(lang: Lang, en: Json, ro: Json, key: string, fallback: Option<Json>): (r: Json)
    // On a hit the answer is the found value, or the caller's fallback when the value fails its type check.
    ensures Found(lang, en, ro, Strings.Split(key, '.')).Some? ==>
              Found(lang, en, ro, Strings.Split(key, '.')) == Some(r) || (fallback.Some? && r == fallback.value)
    // On a miss the answer is the caller's fallback or the key itself: nothing else.
    ensures Found(lang, en, ro, Strings.Split(key, '.')).None? ==>
              (fallback.Some? && r == fallback.value) || r == Str(key)
  {
    var found := Found(lang, en, ro, Strings.Split(key, '.'));
    if found.None? then FallbackOrKey(key, fallback)
    else if fallback.Some? then MatchType(found.value, fallback.value)
    else found.value
  }

  /** A key that is present in the current language is answered from it, whatever the English dictionary holds. */
  lemma TranslateCurrentFirst(lang: Lang, en: Json, ro: Json, key: string, fallback: Option<Json>, v: Json)
    requires PathValue(Dict(lang, en, ro), Strings.Split(key, '.')) == Some(v)
    ensures Translate(lang, en, ro, key, fallback) == if fallback.Some? then MatchType(v, fallback.value) else v
  {
  }

  /** English is consulted only when the current language is not English and misses the key. */
  lemma TranslateEnglishOnlyOnMiss(key: string, fallback: Option<Json>, en: Json, en': Json, ro: Json, ro': Json)
    ensures Translate(En, en, ro, key, fallback) == Translate(En, en, ro', key, fallback)
    ensures PathValue(ro, Strings.Split(key, '.')).Some? ==>
              Translate(Ro, en, ro, key, fallback) == Translate(Ro, en', ro, key, fallback)
    ensures PathValue(ro, Strings.Split(key, '.')).None? ==>
              Translate(Ro, en, ro, key, fallback) == Translate(En, en, ro', key, fallback)
  {
  }

  /** A key missing from both dictionaries yields the fallback, or the key when the fallback is null or absent. */
  lemma TranslateMissing(lang: Lang, en: Json, ro: Json, key: string, fallback: Option<Json>)
    requires PathValue(Dict(lang, en, ro), Strings.Split(key, '.')).None?
    requires PathValue(en, Strings.Split(key, '.')).None?
    ensures fallback.Some? && !fallback.value.Null? ==> Translate(lang, en, ro, key, fallback) == fallback.value
    ensures fallback.None? || fallback.value.Null? ==> Translate(lang, en, ro, key, fallback) == Str(key)
  {
  }

  /** Without a fallback the found value is returned as it is; only a miss turns into the key. */
  lemma TranslateWithoutFallback(lang: Lang, en: Json, ro: Json, key: string)
    ensures Found(lang, en, ro, Strings.Split(key, '.')).Some? ==>
              Translate(lang, en, ro, key, None) == Found(lang, en, ro, Strings.Split(key, '.')).value
    ensures Found(lang, en, ro, Strings.Split(key, '.')).None? ==>
              Translate(lang, en, ro, key, None) == Str(key)
  {
  }

  /**
   * The type the caller's fallback announces is the type it gets back, unless
   * the fallback is null, in which case a found string becomes null and a miss
   * still yields the key string.
   */
  lemma TranslateHonoursFallbackType(lang: Lang, en: Json, ro: Json, key: string, f: Json, v: Json)
    ensures !f.Null? ==> TypeOf(Translate(lang, en, ro, key, Some(f))) == TypeOf(f)
    ensures f.Null? ==>
              var r := Translate(lang, en, ro, key, Some(f));
              (Found(lang, en, ro, Strings.Split(key, '.')).None? ==> r == Str(key)) &&
              (Found(lang, en, ro, Strings.Split(key, '.')).Some? ==> TypeOf(r) == TObject)
    // With a null fallback, a found object (or array, or null) comes back as it is,
    // and a found string, number or boolean is replaced by null.
    ensures f.Null? && Found(lang, en, ro, Strings.Split(key, '.')) == Some(v) ==>
              var r := Translate(lang, en, ro, key, Some(f));
              (TypeOf(v) == TObject ==> r == v) && (TypeOf(v) != TObject ==> r == Null)
  {
  }

  /**
   * A dotted key is looked up level by level: the part before the first dot
   * selects a child of the dictionary, and the rest of the key is looked up in
   * that child. A key without dots is one top-level lookup.
   */
  lemma DottedKeyDescends(d: Json, a: string, b: string)
    requires '.' !in a
    ensures PathValue(d, Strings.Split(a, '.')) == Step(d, a)
    ensures PathValue(d, Strings.Split(a + "." + b, '.')) == match Step(d, a)
                                                           case None => None
                                                           case Some(child) => PathValue(child, Strings.Split(b, '.'))
  {
    Strings.SplitWithoutSeparator(a, '.');
    Strings.SplitAfterSegment(a, '.', b);
    PathValueStep(d, a, []);
    PathValueStep(d, a, Strings.Split(b, '.'));
  }
}
