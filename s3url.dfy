/** Display-time rendering of media keys into S3 URLs (`getImageUrl`,
    `getAudioUrl`, `getVideoUrl`, `getImageUrlSet`). The keys are what is
    stored; the URLs are derived and never persisted. */
module S3Url {
  import opened Common

  const S3BaseUrl := "https://pointz-files.s3.ap-south-1.amazonaws.com/"

  /** `IMAGE_SIZES`, the only sizes the TypeScript type of `size` admits. */
  const ImageSizes: seq<nat> := [150, 300, 720, 900, 1080, 1296]

  const DefaultImageSize: nat := 300

  /** The part after the key: `_<size>.webp`. */
  function ImageSuffix(size: nat): string
  {
    "_" + NatToString(size) + ".webp"
  }

  /** `getImageUrl(baseKey, size)`. */
  function ImageUrl(baseKey: MediaKey, size: nat): (url: string)
    requires size in ImageSizes
  {
    if baseKey == "" then "" else S3BaseUrl + baseKey + ImageSuffix(size)
  }

  /** `getImageUrl(baseKey)` with the size left to its default. */
  function DefaultImageUrl(baseKey: MediaKey): string
  {
    ImageUrl(baseKey, DefaultImageSize)
  }

  /** `getAudioUrl(baseKey)`. */
  function AudioUrl(baseKey: MediaKey): string
  {
    if baseKey == "" then "" else S3BaseUrl + baseKey
  }

  /** `getVideoUrl(baseKey)`: the same rule as for audio. */
  function VideoUrl(baseKey: MediaKey): string
  {
    if baseKey == "" then "" else S3BaseUrl + baseKey
  }

  /** `IMAGE_SIZES` as a set. */
  const ImageSizeSet: set<nat> := {150, 300, 720, 900, 1080, 1296}

  lemma ImageSizesAsSet()
    ensures forall size :: size in ImageSizes <==> size in ImageSizeSet
  {
  }

  /** `getImageUrlSet(baseKey)`: one URL per entry of `IMAGE_SIZES`. */
  function ImageUrlSet(baseKey: MediaKey): (urls: map<nat, string>)
    ensures urls.Keys == ImageSizeSet
    ensures forall size :: size in urls ==> size in ImageSizes && urls[size] == ImageUrl(baseKey, size)
  {
    ImageSizesAsSet();
    map size | size in ImageSizes :: ImageUrl(baseKey, size)
  }

  /** The key an image URL of the given size was made from ("" for "" and for
      anything that is not such a URL). */
  function ImageKeyOf(url: string, size: nat): MediaKey
  {
    var suffix := ImageSuffix(size);
    if |url| > |S3BaseUrl| + |suffix| && StartsWith(url, S3BaseUrl) && url[|url| - |suffix|..] == suffix
    then url[|S3BaseUrl|..|url| - |suffix|]
    else ""
  }

  /** The key a media (audio or video) URL was made from. */
  function MediaKeyOf(url: string): MediaKey
  {
    if |url| > |S3BaseUrl| && StartsWith(url, S3BaseUrl) then url[|S3BaseUrl|..] else ""
  }

  /** Round trip: the key can be read back from its image URL, so distinct keys
      get distinct URLs at every size; the empty key maps to "". */
  lemma ImageUrlRoundTrip(baseKey: MediaKey, size: nat)
    requires size in ImageSizes
    ensures ImageKeyOf(ImageUrl(baseKey, size), size) == baseKey
    ensures ImageUrl(baseKey, size) == "" <==> baseKey == ""
  {
    if baseKey != "" {
      var url := ImageUrl(baseKey, size);
      var suffix := ImageSuffix(size);
      assert url == S3BaseUrl + baseKey + suffix;
      assert url[..|S3BaseUrl|] == S3BaseUrl;
      assert url[|url| - |suffix|..] == suffix;
      assert url[|S3BaseUrl|..|url| - |suffix|] == baseKey;
    }
  }

  /** Round trip for audio and video URLs, which coincide. */
  lemma MediaUrlRoundTrip(baseKey: MediaKey)
    ensures MediaKeyOf(AudioUrl(baseKey)) == baseKey
    ensures AudioUrl(baseKey) == VideoUrl(baseKey)
    ensures AudioUrl(baseKey) == "" <==> baseKey == ""
  {
    if baseKey != "" {
      var url := AudioUrl(baseKey);
      assert url[..|S3BaseUrl|] == S3BaseUrl;
      assert url[|S3BaseUrl|..] == baseKey;
    }
  }

  lemma PrefixOfConcat(a: string, b: string)
    ensures StartsWith(a + b, a)
  {
    assert (a + b)[..|a|] == a;
  }

  /** The last `k` characters of `a + b` are those of `b` when `b` has `k`. */
  lemma TailOfConcat(a: string, b: string, k: nat)
    requires k <= |b|
    ensures (a + b)[|a + b| - k..] == b[|b| - k..]
  {
  }

  lemma SuffixEndsInWebp(size: nat)
    ensures |ImageSuffix(size)| >= 5 && ImageSuffix(size)[|ImageSuffix(size)| - 5..] == ".webp"
  {
    TailOfConcat("_" + NatToString(size), ".webp", 5);
  }

  /** A key followed by a `.webp` suffix, put after the base URL, starts with
      the base URL and ends in `.webp`. */
  lemma KeyUrlUnderBase(baseKey: MediaKey, suffix: string)
    requires |suffix| >= 5 && suffix[|suffix| - 5..] == ".webp"
    ensures var url := S3BaseUrl + baseKey + suffix;
      StartsWith(url, S3BaseUrl) && url[|url| - 5..] == ".webp"
  {
    assert S3BaseUrl + baseKey + suffix == S3BaseUrl + (baseKey + suffix);
    PrefixOfConcat(S3BaseUrl, baseKey + suffix);
    TailOfConcat(S3BaseUrl + baseKey, suffix, 5);
  }

  /** Every non-empty image URL is under the bucket's base URL and ends in `.webp`. */
  lemma ImageUrlUnderBase(baseKey: MediaKey, size: nat)
    requires size in ImageSizes
    ensures ImageUrl(baseKey, size) != "" ==>
      StartsWith(ImageUrl(baseKey, size), S3BaseUrl)
      && ImageUrl(baseKey, size)[|ImageUrl(baseKey, size)| - 5..] == ".webp"
  {
    if baseKey != "" {
      SuffixEndsInWebp(size);
      KeyUrlUnderBase(baseKey, ImageSuffix(size));
    }
  }

  /** Every non-empty audio or video URL is under the bucket's base URL. */
  lemma MediaUrlUnderBase(baseKey: MediaKey)
    ensures AudioUrl(baseKey) != "" ==> StartsWith(AudioUrl(baseKey), S3BaseUrl)
    ensures VideoUrl(baseKey) != "" ==> StartsWith(VideoUrl(baseKey), S3BaseUrl)
  {
    PrefixOfConcat(S3BaseUrl, baseKey);
  }

  /** The suffix names the size: an underscore, the digits that denote
      `size` with no leading zero, and `.webp`. */
  lemma SuffixNamesSize(size: nat)
    ensures var x := ImageSuffix(size);
      && |x| > 6 && x[0] == '_' && x[|x| - 5..] == ".webp"
      && AllDigits(x[1..|x| - 5]) && DecimalValue(x[1..|x| - 5]) == size
      && (x[1] == '0' ==> size == 0)
  {
    var d := NatToString(size);
    var x := ImageSuffix(size);
    assert x == "_" + (d + ".webp");
    assert x[1..] == d + ".webp";
    assert x[1..|x| - 5] == (d + ".webp")[..|d|] == d;
    SuffixEndsInWebp(size);
  }

  /** With no size given, an image URL ends in `_300.webp`. */
  lemma DefaultSizeIs300(baseKey: MediaKey)
    requires baseKey != ""
    ensures DefaultImageUrl(baseKey) == S3BaseUrl + baseKey + "_300.webp"
  {
    assert NatToString(300) == "300" by {
      assert NatToString(3) == "3";
      assert NatToString(30) == "30";
    }
  }
}
