/**
 * Generated favicons for feeds that publish none: the favicon template tinted
 * with a colour derived from the feed's URL. Generated icons are remembered per
 * feed URL for the life of the process.
 *
 * Deriving the colour from the URL and masking the template with it are image
 * code outside this model; together they are one deterministic function from a
 * URL to an optional image, given to the constructor with the template.
 */
module Favicons {
  import opened Wrappers

  type URL = string

  /** An image, as its raw bitmap. */
  datatype Image = Image(bitmap: seq<bv8>)

  datatype IconImage = IconImage(image: Image, isBackgroundSuppressed: bool)

  datatype Feed = Feed(url: URL)

  /** The icon for `url` without any cache: the tinted template when masking
      succeeds, the untinted template otherwise; background suppression is always on. */
  function GeneratedIcon(mask: URL -> Option<Image>, template: Image, url: URL): IconImage {
    match mask(url)
    case Some(tinted) => IconImage(tinted, true)
    case None => IconImage(template, true)
  }

  /** One generator stands for the process-wide cache, which is keyed by feed URL. */
  class FaviconGenerator {
    const template: Image
    /** Colour hash of the URL followed by masking the template with that colour. */
    const mask: URL -> Option<Image>
    var cache: map<URL, IconImage>

    /** Only successfully tinted icons are cached, each under the URL it was made for. */
    ghost predicate Valid()
      reads this
    {
      forall url :: url in cache ==> mask(url).Some? && cache[url] == IconImage(mask(url).value, true)
    }

    constructor (template: Image, mask: URL -> Option<Image>)
      ensures this.template == template && this.mask == mask
      ensures cache == map[] && Valid()
    {
      this.template := template;
      this.mask := mask;
      cache := map[];
    }

    /** The favicon for a feed: a cache hit returns the stored icon; a miss tints the
        template, caching the result only when tinting succeeds. */
    method Favicon(feed: Feed) returns (icon: IconImage)
      requires Valid()
      modifies this`cache
      ensures Valid()
      ensures icon == GeneratedIcon(mask, template, feed.url)
      ensures icon.isBackgroundSuppressed
      ensures feed.url in old(cache) ==> icon == old(cache)[feed.url] && cache == old(cache)
      ensures feed.url !in old(cache) && mask(feed.url).Some? ==>
                icon == IconImage(mask(feed.url).value, true) && cache == old(cache)[feed.url := icon]
      ensures feed.url !in old(cache) && mask(feed.url).None? ==>
                icon == IconImage(template, true) && cache == old(cache)
      ensures forall url :: url in old(cache) ==> url in cache && cache[url] == old(cache)[url]
    {
      if feed.url in cache {
        return cache[feed.url];
      }
      match mask(feed.url)
      case Some(tinted) =>
        icon := IconImage(tinted, true);
        cache := cache[feed.url := icon];
      case None =>
        icon := IconImage(template, true);
    }
  }

  /** Asking twice for the same feed gives the same icon; after a successful first
      call the second is a cache hit. */
  method FaviconTwice(generator: FaviconGenerator, feed: Feed) returns (first: IconImage, second: IconImage)
    requires generator.Valid()
    modifies generator
    ensures first == second
    ensures generator.mask(feed.url).Some? ==> feed.url in generator.cache && generator.cache[feed.url] == first
  {
    first := generator.Favicon(feed);
    second := generator.Favicon(feed);
  }
}
