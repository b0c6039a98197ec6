/**
 * `onRequest` of functions/rss.js:3-75: validate the `podcast` parameter and
 * the storage configuration, list the objects under `podcast + "/"`, and answer
 * 400, 500, 404, 500 or 200 with the RSS 2.0 document.
 *
 * The URL parser, the environment, the storage client and the clock are
 * inputs: the request arrives already parsed, the environment as optional
 * strings, the listing call as a function of bucket name and prefix, and the
 * current time as the text `new Date().toUTCString()` gives.
 */
module Handler {
  import opened Wrappers
  import opened Feed

  /** The parsed request: `searchParams.get('podcast')`, `url.host` and `url.pathname`. */
  datatype Request = Request(podcast: Option<string>, host: string, pathname: string)

  /** `R2_BUCKET_NAME`, `R2_ACCESS_KEY_ID`, `R2_SECRET_ACCESS_KEY` and `R2_ENDPOINT`; `None` when unset. */
  datatype Env = Env(
    bucketName: Option<string>,
    accessKeyId: Option<string>,
    secretAccessKey: Option<string>,
    endpoint: Option<string>)

  /**
   * What `await r2.list(...)` produces: a result whose `objects` member may be
   * missing, or a thrown error with its cause.
   */
  datatype Listing = Listed(objects: Option<seq<StorageObject>>) | ListFailed(cause: string)

  datatype Response = Response(status: nat, body: string, contentType: string)

  /** The content type the Fetch standard gives a `Response` built from a string body. */
  const TextPlain := "text/plain;charset=UTF-8"
  const XmlContentType := "application/xml; charset=utf-8"

  const MissingPodcastMessage :=
    "Error: Missing 'podcast' query parameter. Please specify a podcast name in the URL (e.g., /rss.xml?podcast=pod1)."
  const MissingConfigMessage := "Error: Missing R2 configuration. Check environment variables."

  function NotFoundMessage(podcastName: string, prefix: string): string {
    "No MP3 files found for podcast '" + podcastName + "'. Please check if the podcast directory '"
    + prefix + "' exists in your R2 bucket and contains MP3 files."
  }

  function StorageErrorMessage(podcastName: string): string {
    "Error generating RSS feed for podcast '" + podcastName + "'."
  }

  /** JavaScript truthiness of a possibly missing string: present and non-empty. */
  predicate Truthy(v: Option<string>) {
    v.Some? && v.value != ""
  }

  /** How a template literal writes a possibly missing string: `undefined` when missing. */
  function TemplateText(v: Option<string>): string {
    if v.Some? then v.value else "undefined"
  }

  /** The configuration check of functions/rss.js:18; the endpoint is not part of it. */
  predicate ConfigComplete(env: Env) {
    Truthy(env.bucketName) && Truthy(env.accessKeyId) && Truthy(env.secretAccessKey)
  }

  /** `!objects.objects || objects.objects.length === 0` (functions/rss.js:32). */
  predicate RawListingEmpty(objects: Option<seq<StorageObject>>) {
    objects.None? || |objects.value| == 0
  }

  /**
   * The feed document of functions/rss.js:54-63, whitespace included. The
   * podcast name is written unescaped into the channel's title, link and
   * description, and the link is followed by the template's `<!- ... -->` text.
   */
  function FeedDocument(podcastName: string, host: string, pathname: string, now: string, rssItems: string): string {
    "<?xml version=\"1.0\" encoding=\"UTF-8\"?>\n        <rss version=\"2.0\">\n          <channel>\n"
    + "            <title>Podcast: " + podcastName + "</title>\n"
    + "            <link>https://" + host + pathname + "?podcast=" + podcastName
    + "</link> <!- RSS Link with query parameter -->\n"
    + "            <description>MP3 files for podcast '" + podcastName + "' hosted on Cloudflare R2</description>\n"
    + "            <pubDate>" + now + "</pubDate>\n"
    + "            " + rssItems + "\n          </channel>\n        </rss>"
  }

  /**
   * For fixed channel fields the document determines the item text: the
   * items are embedded unchanged between the channel header and its end.
   */
  lemma FeedDocumentInjective(podcastName: string, host: string, pathname: string, now: string,
                              rssItems: string, rssItems': string)
    requires FeedDocument(podcastName, host, pathname, now, rssItems)
          == FeedDocument(podcastName, host, pathname, now, rssItems')
    ensures rssItems == rssItems'
  {
    var doc := FeedDocument(podcastName, host, pathname, now, rssItems);
    var doc' := FeedDocument(podcastName, host, pathname, now, rssItems');
    var tail := "\n          </channel>\n        </rss>";
    var head := doc[..|doc| - |rssItems| - |tail|];
    assert doc == head + rssItems + tail;
    assert doc' == head + rssItems' + tail;
    assert rssItems == doc[|head|..|doc| - |tail|];
    assert rssItems' == doc'[|head|..|doc'| - |tail|];
  }

  /** The response `onRequest` gives, as a function of its inputs. */
  function Handle(req: Request, env: Env, lister: (string, string) -> Listing, now: string): Response {
    if !Truthy(req.podcast) then Response(400, MissingPodcastMessage, TextPlain)
    else
      var podcastName := req.podcast.value;
      var prefix := podcastName + "/";
      if !ConfigComplete(env) then Response(500, MissingConfigMessage, TextPlain)
      else match lister(env.bucketName.value, prefix)
        case ListFailed(_) => Response(500, StorageErrorMessage(podcastName), TextPlain)
        case Listed(objects) =>
          if RawListingEmpty(objects) then Response(404, NotFoundMessage(podcastName, prefix), TextPlain)
          else
            var items := RenderAll(Items(objects.value, prefix, TemplateText(env.endpoint)));
            Response(200, FeedDocument(podcastName, req.host, req.pathname, now, items), XmlContentType)
  }

  /** `onRequest`, with its early returns and the item loop. */
  method OnRequest(req: Request, env: Env, lister: (string, string) -> Listing, now: string)
    returns (resp: Response)
    ensures resp == Handle(req, env, lister, now)
  {
    if !Truthy(req.podcast) {
      return Response(400, MissingPodcastMessage, TextPlain);
    }
    var podcastName := req.podcast.value;
    var publicBucketUrlBase := TemplateText(env.endpoint);
    var podcastPrefix := podcastName + "/";
    if !Truthy(env.bucketName) || !Truthy(env.accessKeyId) || !Truthy(env.secretAccessKey) {
      return Response(500, MissingConfigMessage, TextPlain);
    }
    var listing := lister(env.bucketName.value, podcastPrefix);
    if listing.ListFailed? {
      return Response(500, StorageErrorMessage(podcastName), TextPlain);
    }
    if listing.objects.None? || |listing.objects.value| == 0 {
      return Response(404, NotFoundMessage(podcastName, podcastPrefix), TextPlain);
    }
    var rssItems := BuildItems(listing.objects.value, podcastPrefix, publicBucketUrlBase);
    var rssFeed := FeedDocument(podcastName, req.host, req.pathname, now, rssItems);
    resp := Response(200, rssFeed, XmlContentType);
  }

  /** The listing `onRequest` asks for: the configured bucket and the prefix `podcast + "/"`. */
  function ListingFor(req: Request, env: Env, lister: (string, string) -> Listing): Listing
    requires Truthy(req.podcast) && ConfigComplete(env)
  {
    lister(env.bucketName.value, req.podcast.value + "/")
  }

  /** Every response is one of the five outcomes, each in exactly the circumstances that lead to it. */
  lemma StatusOutcomes(req: Request, env: Env, lister: (string, string) -> Listing, now: string)
    ensures Handle(req, env, lister, now).status in {200, 400, 404, 500}
    ensures Handle(req, env, lister, now).status == 400 <==> !Truthy(req.podcast)
    ensures Handle(req, env, lister, now).status == 500 <==>
      Truthy(req.podcast) && (!ConfigComplete(env) || ListingFor(req, env, lister).ListFailed?)
    ensures Handle(req, env, lister, now).status == 404 <==>
      Truthy(req.podcast) && ConfigComplete(env) && ListingFor(req, env, lister).Listed?
      && RawListingEmpty(ListingFor(req, env, lister).objects)
    ensures Handle(req, env, lister, now).status == 200 <==>
      Truthy(req.podcast) && ConfigComplete(env) && ListingFor(req, env, lister).Listed?
      && !RawListingEmpty(ListingFor(req, env, lister).objects)
    ensures Handle(req, env, lister, now).contentType ==
      if Handle(req, env, lister, now).status == 200 then XmlContentType else TextPlain
  {
    if Truthy(req.podcast) && ConfigComplete(env) {
      var listing := ListingFor(req, env, lister);
      var r := Handle(req, env, lister, now);
      if listing.ListFailed? {
        assert r.status == 500;
      } else if RawListingEmpty(listing.objects) {
        assert r.status == 404;
      } else {
        assert r.status == 200;
      }
    }
  }

  /**
   * A missing or empty `podcast` parameter is answered with 400 before the
   * configuration, the storage or the clock is consulted.
   */
  lemma MissingPodcast(req: Request, env: Env, env': Env,
                       lister: (string, string) -> Listing, lister': (string, string) -> Listing,
                       now: string, now': string)
    requires !Truthy(req.podcast)
    ensures Handle(req, env, lister, now) == Response(400, MissingPodcastMessage, TextPlain)
    ensures Handle(req, env, lister, now) == Handle(req, env', lister', now')
  {
  }

  /**
   * With any of bucket name, access key id or secret key missing or empty, the
   * answer is 500 with the fixed configuration message, whatever the podcast
   * name, the storage or the clock.
   */
  lemma MissingConfig(req: Request, req': Request, env: Env,
                      lister: (string, string) -> Listing, lister': (string, string) -> Listing,
                      now: string, now': string)
    requires Truthy(req.podcast) && Truthy(req'.podcast)
    requires !Truthy(env.bucketName) || !Truthy(env.accessKeyId) || !Truthy(env.secretAccessKey)
    ensures Handle(req, env, lister, now) == Response(500, MissingConfigMessage, TextPlain)
    ensures Handle(req, env, lister, now) == Handle(req', env, lister', now')
  {
  }

  /** The endpoint is not checked: unsetting or changing it never changes the status. */
  lemma EndpointNotChecked(req: Request, env: Env, endpoint: Option<string>,
                           lister: (string, string) -> Listing, now: string)
    ensures Handle(req, env, lister, now).status == Handle(req, env.(endpoint := endpoint), lister, now).status
  {
  }

  /**
   * A thrown listing error is answered with 500 and a body that names the
   * podcast only: two failures with different causes give the same response.
   */
  lemma StorageErrorHidesCause(req: Request, env: Env, lister: (string, string) -> Listing,
                               lister': (string, string) -> Listing, now: string)
    requires Truthy(req.podcast) && ConfigComplete(env)
    requires ListingFor(req, env, lister).ListFailed? && ListingFor(req, env, lister').ListFailed?
    ensures Handle(req, env, lister, now)
         == Response(500, "Error generating RSS feed for podcast '" + req.podcast.value + "'.", TextPlain)
    ensures Handle(req, env, lister, now) == Handle(req, env, lister', now)
  {
  }

  /** A missing or empty raw listing is answered with 404, naming the podcast and its prefix. */
  lemma EmptyListingNotFound(req: Request, env: Env, lister: (string, string) -> Listing, now: string)
    requires Truthy(req.podcast) && ConfigComplete(env)
    requires ListingFor(req, env, lister).Listed? && RawListingEmpty(ListingFor(req, env, lister).objects)
    ensures Handle(req, env, lister, now) ==
      Response(404, "No MP3 files found for podcast '" + req.podcast.value
        + "'. Please check if the podcast directory '" + req.podcast.value + "/"
        + "' exists in your R2 bucket and contains MP3 files.", TextPlain)
  {
  }

  /**
   * A non-empty listing without any `.mp3` key is not a 404: it is answered
   * with 200 and a feed without items.
   */
  lemma NoMp3StillFeed(req: Request, env: Env, lister: (string, string) -> Listing, now: string)
    requires Truthy(req.podcast) && ConfigComplete(env)
    requires ListingFor(req, env, lister).Listed? && !RawListingEmpty(ListingFor(req, env, lister).objects)
    requires forall o :: o in ListingFor(req, env, lister).objects.value ==> !IsMp3(o.key)
    ensures Handle(req, env, lister, now) ==
      Response(200, FeedDocument(req.podcast.value, req.host, req.pathname, now, ""), XmlContentType)
  {
  }

  /**
   * A 200 answer carries one rendered item per `.mp3` object of the listing,
   * the item of position `i` at the place given by the `.mp3` objects before it,
   * with the key's part after `podcast + "/"` as title and the configured
   * endpoint, or the text `undefined` when it is unset, before the key in the URL.
   */
  lemma FeedItems(req: Request, env: Env, lister: (string, string) -> Listing, now: string, i: int)
    requires Truthy(req.podcast) && ConfigComplete(env)
    requires ListingFor(req, env, lister).Listed? && !RawListingEmpty(ListingFor(req, env, lister).objects)
    requires 0 <= i < |ListingFor(req, env, lister).objects.value|
    requires IsMp3(ListingFor(req, env, lister).objects.value[i].key)
    ensures
      var objs := ListingFor(req, env, lister).objects.value;
      var prefix := req.podcast.value + "/";
      var items := Items(objs, prefix, TemplateText(env.endpoint));
      && Handle(req, env, lister, now).body
         == FeedDocument(req.podcast.value, req.host, req.pathname, now, RenderAll(items))
      && |items| == |Mp3Positions(objs)|
      && |Mp3Positions(objs[..i])| < |items|
      && (prefix <= objs[i].key ==>
            items[|Mp3Positions(objs[..i])|]
            == FeedItem(objs[i].key[|prefix|..], TemplateText(env.endpoint) + "/" + objs[i].key,
                        objs[i].size, objs[i].uploaded))
  {
    var objs := ListingFor(req, env, lister).objects.value;
    var prefix := req.podcast.value + "/";
    var base := TemplateText(env.endpoint);
    ItemCount(objs, prefix, base);
    ItemAt(objs, i, prefix, base);
    var key := objs[i].key;
    if prefix <= key {
      ItemOfPrefixedKey(objs[i], prefix, key[|prefix|..], base);
      assert prefix + key[|prefix|..] == key;
    }
  }
}
