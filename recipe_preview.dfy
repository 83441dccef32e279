/**
  Preview images for recipe pages: a time-limited cache keyed by page URL,
  the collection of `<meta>` and `<img>` tags while a page is parsed, the
  choice of an image among them, and the resolution of the chosen address
  against the page's own. The clock, the HTTP fetch, the HTML tokenizer,
  `urlparse` and `urljoin` are inputs of the model.
*/
module RecipePreview {
  import opened Optional
  import opened Text

  /** Cached answers live six hours. */
  const CacheTtlSeconds: real := (60 * 60 * 6) as real

  // ---------------------------------------------------------------- cache

  /** A cached image address (None when the page had none) and the time it expires. */
  type CacheEntry = (Option<string>, real)

  /**
    `_cache_get` on the cache contents `entries` at time `now`: the value
    and the contents afterwards. A missing URL is a miss; an expired entry
    is a miss and is removed; otherwise the stored value is returned.
  */
  function CacheGet(entries: map<string, CacheEntry>, url: string, now: real): (r: (Option<string>, map<string, CacheEntry>))
    ensures url !in entries ==> r == (None, entries)
    ensures url in entries && entries[url].1 < now ==> r.0.None? && r.1 == entries - {url}
    ensures r.0.Some? ==> url in entries && r.0 == entries[url].0 && now <= entries[url].1 && r.1 == entries
    ensures forall k :: k != url ==> (k in r.1 <==> k in entries) && (k in r.1 ==> r.1[k] == entries[k])
  {
    if url !in entries then (None, entries)
    else if entries[url].1 < now then (None, entries - {url})
    else (entries[url].0, entries)
  }

  /** `_cache_set`: the value, stamped to expire `CacheTtlSeconds` after `now`. */
  function CacheSet(entries: map<string, CacheEntry>, url: string, value: Option<string>, now: real): (r: map<string, CacheEntry>)
    ensures url in r && r[url] == (value, now + CacheTtlSeconds)
    ensures forall k :: k != url ==> (k in r <==> k in entries) && (k in r ==> r[k] == entries[k])
  {
    entries[url := (value, now + CacheTtlSeconds)]
  }

  /** A value stored at time `t` is read back at any time up to six hours later, and nothing else changes. */
  lemma SetThenGet(entries: map<string, CacheEntry>, url: string, value: Option<string>, t: real, now: real)
    requires now <= t + CacheTtlSeconds
    ensures CacheGet(CacheSet(entries, url, value, t), url, now) == (value, CacheSet(entries, url, value, t))
  {
  }

  /** Later than six hours, the read misses and drops just that URL. */
  lemma SetThenExpire(entries: map<string, CacheEntry>, url: string, value: Option<string>, t: real, now: real)
    requires now > t + CacheTtlSeconds
    ensures CacheGet(CacheSet(entries, url, value, t), url, now).0.None?
    ensures CacheGet(CacheSet(entries, url, value, t), url, now).1 == entries - {url}
  {
  }

  /** `urlparse(url).scheme in {"http", "https"}`, with the scheme supplied by `schemeOf`. */
  function NormalizeUrl(url: string, schemeOf: string -> string): (r: Option<string>)
    ensures r.Some? <==> schemeOf(url) in {"http", "https"}
    ensures r.Some? ==> r.value == url
  {
    if schemeOf(url) in {"http", "https"} then Some(url) else None
  }

  /** The module-level cache of preview images. */
  class PreviewCache {
    var entries: map<string, CacheEntry>

    constructor()
      ensures entries == map[]
    {
      entries := map[];
    }

    /** `_cache_get`: reads the entry for `url` at time `now`, dropping it when it has expired. */
    method Get(url: string, now: real) returns (value: Option<string>)
      modifies this
      ensures (value, entries) == CacheGet(old(entries), url, now)
    {
      if url !in entries {
        return None;
      }
      var (v, expires) := entries[url];
      if expires < now {
        entries := entries - {url};
        return None;
      }
      return v;
    }

    /** `_cache_set`: stores `value` for `url`, to expire six hours after `now`. */
    method Set(url: string, value: Option<string>, now: real)
      modifies this
      ensures entries == CacheSet(old(entries), url, value, now)
    {
      entries := entries[url := (value, now + CacheTtlSeconds)];
    }

    /**
      `get_recipe_preview_image`: nothing for a URL that is not http(s),
      without touching the cache; a cached image when there is one; else
      the fetched image, which is cached (a cached None counts as a miss
      and is fetched again). `now` is the time of the read, `fetchedAt` the
      time of the write, and `fetch` the page fetch and image choice.
    */
    method GetRecipePreviewImage(url: string, schemeOf: string -> string, fetch: string -> Option<string>,
                                 now: real, fetchedAt: real) returns (image: Option<string>)
      modifies this
      ensures NormalizeUrl(url, schemeOf).None? ==> image.None? && entries == old(entries)
      ensures NormalizeUrl(url, schemeOf).Some? ==>
        var (cached, after) := CacheGet(old(entries), url, now);
        if cached.Some? then image == cached && entries == after
        else image == fetch(url) && entries == CacheSet(after, url, image, fetchedAt)
    {
      var normalized := NormalizeUrl(url, schemeOf);
      if normalized.None? {
        return None;
      }
      var cached := Get(normalized.value, now);
      if cached.Some? {
        return cached;
      }
      image := fetch(normalized.value);
      Set(normalized.value, image, fetchedAt);
    }
  }

  // ---------------------------------------------------------------- addresses

  predicate StartsWith(s: string, p: string) {
    IsPrefix(p, s)
  }

  /** An http or https address. */
  predicate Absolute(s: string) {
    StartsWith(s, "http://") || StartsWith(s, "https://")
  }

  /**
    `_absolutize`: nothing for an empty candidate; a protocol-relative
    `//host/...` gets the page's scheme; an http(s) address is kept as it
    is; anything else is resolved against the page address by `urljoin`
    (None where it fails).
  */
  function Absolutize(candidate: string, baseUrl: string, baseScheme: string,
                      urljoin: (string, string) -> Option<string>): (r: Option<string>)
    ensures candidate == "" ==> r.None?
    ensures candidate != "" && StartsWith(candidate, "//") ==> r == Some(baseScheme + ":" + candidate)
    ensures candidate != "" && !StartsWith(candidate, "//") && Absolute(candidate) ==> r == Some(candidate)
    ensures candidate != "" && !StartsWith(candidate, "//") && !Absolute(candidate) ==> r == urljoin(baseUrl, candidate)
  {
    if candidate == "" then None
    else if StartsWith(candidate, "//") then Some(baseScheme + ":" + candidate)
    else if Absolute(candidate) then Some(candidate)
    else urljoin(baseUrl, candidate)
  }

  /**
    On an http(s) page, an address made absolute stays as it is when made
    absolute again: a protocol-relative candidate becomes an http(s) one.
  */
  lemma AbsolutizeIdempotent(candidate: string, baseUrl: string, baseScheme: string,
                             urljoin: (string, string) -> Option<string>)
    requires baseScheme == "http" || baseScheme == "https"
    requires StartsWith(candidate, "//") || Absolute(candidate)
    ensures var r := Absolutize(candidate, baseUrl, baseScheme, urljoin);
      r.Some? && Absolute(r.value) && Absolutize(r.value, baseUrl, baseScheme, urljoin) == r
  {
    var r := Absolutize(candidate, baseUrl, baseScheme, urljoin).value;
    if StartsWith(candidate, "//") {
      assert r == baseScheme + "://" + candidate[2..];
      if baseScheme == "http" {
        assert r[..7] == "http://";
        assert r[..2] == "ht";
      } else {
        assert r[..8] == "https://";
        assert r[..2] == "ht";
      }
    } else if StartsWith(candidate, "http://") {
      assert candidate[..2] == "ht";
    } else {
      assert candidate[..2] == "ht";
    }
  }

  // ---------------------------------------------------------------- tag collection

  /** An HTML attribute as the tokenizer reports it: a name and maybe a value. */
  type Attr = (string, Option<string>)

  /**
    `{name.lower(): value for name, value in attrs if name and value}`:
    attributes with a name and a non-empty value, names lower-cased, a
    later attribute overriding an earlier one with the same name.
  */
  function AttrDict(attrs: seq<Attr>): (d: map<string, string>)
    ensures forall k :: k in d ==> d[k] != ""
    ensures forall k :: k in d <==> exists i :: 0 <= i < |attrs| && attrs[i].0 != "" && Truthy(attrs[i].1) && Lower(attrs[i].0) == k
  {
    if attrs == [] then map[]
    else
      var prev := AttrDict(attrs[..|attrs| - 1]);
      var (name, value) := attrs[|attrs| - 1];
      if name != "" && value.Some? && value.value != "" then prev[Lower(name) := value.value] else prev
  }

  predicate Truthy(v: Option<string>) {
    v.Some? && v.value != ""
  }

  /** The value of an attribute is that of the last attribute with that name (in any case) and a non-empty value. */
  lemma {:induction false} AttrDictLastWins(attrs: seq<Attr>, i: nat)
    requires i < |attrs| && attrs[i].0 != "" && Truthy(attrs[i].1)
    requires forall j :: i < j < |attrs| && attrs[j].0 != "" && Truthy(attrs[j].1) ==> Lower(attrs[j].0) != Lower(attrs[i].0)
    ensures AttrDict(attrs)[Lower(attrs[i].0)] == attrs[i].1.value
  {
    if i < |attrs| - 1 {
      var init := attrs[..|attrs| - 1];
      AttrDictLastWins(init, i);
    }
  }

  /** The tags the page parser keeps. */
  class PreviewHtmlParser {
    var metaTags: seq<map<string, string>>
    var imgTags: seq<map<string, string>>

    constructor()
      ensures metaTags == [] && imgTags == []
    {
      metaTags := [];
      imgTags := [];
    }

    /** `handle_starttag`: keeps the attributes of a `<meta>` or an `<img>` (tag name in any case); other tags change nothing. */
    method HandleStartTag(tag: string, attrs: seq<Attr>)
      modifies this
      ensures Lower(tag) == "meta" ==> metaTags == old(metaTags) + [AttrDict(attrs)] && imgTags == old(imgTags)
      ensures Lower(tag) == "img" ==> imgTags == old(imgTags) + [AttrDict(attrs)] && metaTags == old(metaTags)
      ensures Lower(tag) != "meta" && Lower(tag) != "img" ==> metaTags == old(metaTags) && imgTags == old(imgTags)
    {
      var attrDict := AttrDict(attrs);
      var lowerTag := Lower(tag);
      if lowerTag == "meta" {
        metaTags := metaTags + [attrDict];
      } else if lowerTag == "img" {
        imgTags := imgTags + [attrDict];
      }
    }
  }

  // ---------------------------------------------------------------- image choice

  /** `d.get(key)` */
  function Get(d: map<string, string>, key: string): Option<string> {
    if key in d then Some(d[key]) else None
  }

  /** Python's `a or b` on optional strings: `a` when it is a non-empty string, else `b`. */
  function Or(a: Option<string>, b: Option<string>): (r: Option<string>)
    ensures Truthy(a) ==> r == a
    ensures !Truthy(a) ==> r == b
  {
    if Truthy(a) then a else b
  }

  /** The meta names that announce a preview image. */
  const PreferredMeta: set<string> := {"og:image", "og:image:secure_url", "twitter:image", "twitter:image:src"}

  /** `(meta.get("property") or meta.get("name") or "").lower()` */
  function MetaName(meta: map<string, string>): string {
    Lower(Or(Or(Get(meta, "property"), Get(meta, "name")), Some("")).value)
  }

  /** The image a meta tag offers: its content made absolute, when its name is a preferred one. */
  function MetaImage(meta: map<string, string>, baseUrl: string, baseScheme: string,
                     urljoin: (string, string) -> Option<string>): Option<string> {
    if MetaName(meta) in PreferredMeta then Absolutize(Get(meta, "content").GetOr(""), baseUrl, baseScheme, urljoin)
    else None
  }

  /**
    The address an `<img>` offers, by priority: `data-src`, `data-original`,
    `src`, and failing those the first address of the first `srcset` entry.
  */
  function ImgCandidate(attrs: map<string, string>): (c: string)
    ensures Truthy(Get(attrs, "data-src")) ==> c == attrs["data-src"]
    ensures !Truthy(Get(attrs, "data-src")) && Truthy(Get(attrs, "data-original")) ==> c == attrs["data-original"]
    ensures !Truthy(Get(attrs, "data-src")) && !Truthy(Get(attrs, "data-original")) && Truthy(Get(attrs, "src")) ==> c == attrs["src"]
    ensures
      (!Truthy(Get(attrs, "data-src")) && !Truthy(Get(attrs, "data-original")) && !Truthy(Get(attrs, "src"))
       && Truthy(Get(attrs, "srcset"))) ==> c == Before(Strip(Before(attrs["srcset"], ',')), ' ')
  {
    var candidate := Or(Or(Get(attrs, "data-src"), Get(attrs, "data-original")), Get(attrs, "src"));
    if !Truthy(candidate) && Truthy(Get(attrs, "srcset")) then Before(Strip(Before(attrs["srcset"], ',')), ' ')
    else candidate.GetOr("")
  }

  /** The first meta tag, in page order, that offers a non-empty image, and that image. */
  function FirstMetaImage(metas: seq<map<string, string>>, baseUrl: string, baseScheme: string,
                          urljoin: (string, string) -> Option<string>): (r: Option<string>)
    ensures r.Some? ==> r.value != ""
  {
    if metas == [] then None
    else
      var image := MetaImage(metas[0], baseUrl, baseScheme, urljoin);
      if Truthy(image) then image else FirstMetaImage(metas[1..], baseUrl, baseScheme, urljoin)
  }

  /** The first `<img>`, in page order, whose candidate makes a non-empty address, and that address. */
  function FirstImgImage(imgs: seq<map<string, string>>, baseUrl: string, baseScheme: string,
                         urljoin: (string, string) -> Option<string>): (r: Option<string>)
    ensures r.Some? ==> r.value != ""
  {
    if imgs == [] then None
    else
      var image := Absolutize(ImgCandidate(imgs[0]), baseUrl, baseScheme, urljoin);
      if Truthy(image) then image else FirstImgImage(imgs[1..], baseUrl, baseScheme, urljoin)
  }

  /** The preview image of a parsed page: meta tags first, then images. */
  function ChooseImage(metas: seq<map<string, string>>, imgs: seq<map<string, string>>, baseUrl: string,
                       baseScheme: string, urljoin: (string, string) -> Option<string>): Option<string> {
    var fromMeta := FirstMetaImage(metas, baseUrl, baseScheme, urljoin);
    if fromMeta.Some? then fromMeta else FirstImgImage(imgs, baseUrl, baseScheme, urljoin)
  }

  /**
    A meta image wins over every `<img>`: when the k-th meta tag offers an
    image and no earlier one does, that image is the choice.
  */
  lemma {:induction false} MetaWins(metas: seq<map<string, string>>, imgs: seq<map<string, string>>, baseUrl: string,
                                    baseScheme: string, urljoin: (string, string) -> Option<string>, k: nat)
    requires k < |metas| && Truthy(MetaImage(metas[k], baseUrl, baseScheme, urljoin))
    requires forall j :: 0 <= j < k ==> !Truthy(MetaImage(metas[j], baseUrl, baseScheme, urljoin))
    ensures ChooseImage(metas, imgs, baseUrl, baseScheme, urljoin) == MetaImage(metas[k], baseUrl, baseScheme, urljoin)
  {
    FirstMetaAt(metas, baseUrl, baseScheme, urljoin, k);
  }

  lemma {:induction false} FirstMetaAt(metas: seq<map<string, string>>, baseUrl: string, baseScheme: string,
                                       urljoin: (string, string) -> Option<string>, k: nat)
    requires k < |metas| && Truthy(MetaImage(metas[k], baseUrl, baseScheme, urljoin))
    requires forall j :: 0 <= j < k ==> !Truthy(MetaImage(metas[j], baseUrl, baseScheme, urljoin))
    ensures FirstMetaImage(metas, baseUrl, baseScheme, urljoin) == MetaImage(metas[k], baseUrl, baseScheme, urljoin)
  {
    if k > 0 {
      FirstMetaAt(metas[1..], baseUrl, baseScheme, urljoin, k - 1);
    }
  }

  /** When no meta tag offers an image, the first `<img>` that does decides. */
  lemma {:induction false} NoMetaFirstImg(metas: seq<map<string, string>>, imgs: seq<map<string, string>>, baseUrl: string,
                                          baseScheme: string, urljoin: (string, string) -> Option<string>)
    requires forall j :: 0 <= j < |metas| ==> !Truthy(MetaImage(metas[j], baseUrl, baseScheme, urljoin))
    ensures ChooseImage(metas, imgs, baseUrl, baseScheme, urljoin) == FirstImgImage(imgs, baseUrl, baseScheme, urljoin)
  {
    NoMetaImage(metas, baseUrl, baseScheme, urljoin);
  }

  lemma {:induction false} NoMetaImage(metas: seq<map<string, string>>, baseUrl: string, baseScheme: string,
                                       urljoin: (string, string) -> Option<string>)
    requires forall j :: 0 <= j < |metas| ==> !Truthy(MetaImage(metas[j], baseUrl, baseScheme, urljoin))
    ensures FirstMetaImage(metas, baseUrl, baseScheme, urljoin).None?
  {
    if metas != [] {
      NoMetaImage(metas[1..], baseUrl, baseScheme, urljoin);
    }
  }

  /**
    The selection loops of `_fetch_preview_image`: the meta tags in order,
    then the images in order, returning the first non-empty address.
  */
  method SelectPreviewImage(metas: seq<map<string, string>>, imgs: seq<map<string, string>>, baseUrl: string,
                            baseScheme: string, urljoin: (string, string) -> Option<string>) returns (image: Option<string>)
    ensures image == ChooseImage(metas, imgs, baseUrl, baseScheme, urljoin)
    ensures image.Some? ==> image.value != ""
  {
    for i := 0 to |metas|
      invariant FirstMetaImage(metas, baseUrl, baseScheme, urljoin) == FirstMetaImage(metas[i..], baseUrl, baseScheme, urljoin)
    {
      var meta := metas[i];
      assert metas[i..][1..] == metas[i + 1..];
      var metaName := MetaName(meta);
      if metaName in PreferredMeta {
        var candidate := Get(meta, "content");
        var found := Absolutize(candidate.GetOr(""), baseUrl, baseScheme, urljoin);
        if Truthy(found) {
          return found;
        }
      }
    }
    assert metas[|metas|..] == [];
    for i := 0 to |imgs|
      invariant FirstImgImage(imgs, baseUrl, baseScheme, urljoin) == FirstImgImage(imgs[i..], baseUrl, baseScheme, urljoin)
    {
      var attrs := imgs[i];
      assert imgs[i..][1..] == imgs[i + 1..];
      var candidate := Or(Or(Get(attrs, "data-src"), Get(attrs, "data-original")), Get(attrs, "src"));
      if !Truthy(candidate) && Truthy(Get(attrs, "srcset")) {
        candidate := Some(Before(Strip(Before(attrs["srcset"], ',')), ' '));
      }
      var found := Absolutize(candidate.GetOr(""), baseUrl, baseScheme, urljoin);
      if Truthy(found) {
        return found;
      }
    }
    assert imgs[|imgs|..] == [];
    return None;
  }
}
