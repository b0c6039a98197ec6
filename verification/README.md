# mp3-podcast RSS handler, modelled in Dafny

`functions/rss.js` is a Cloudflare Pages function. It answers a request for
`?podcast=<name>` by listing the objects under `<name>/` in an R2 bucket. It
keeps the keys that end in `.mp3`, whatever their case, and renders them as the
`<item>`s of an RSS 2.0 feed. It answers 400 when the parameter is missing or
empty, and 500 when the bucket name, access key id or secret key is missing.
It answers 404 when the raw listing is empty and 500 when the listing throws.
Otherwise it answers 200 with the XML document.

The project has four files:

- `xml.dfy`: module `Wrappers` (an `Option` type) and module `Xml`. `Xml` holds
  `escapeXml` as the recursive function `Escape`, and a decoder `Unescape`
  that is its partner.
- `decimal.dfy`: module `Decimal`. It renders `object.size` in decimal
  (`Show`) and reads it back (`Value`).
- `feed.dfy`: module `Feed`. It holds the listing entry (`StorageObject`), the
  `.mp3` filter (`IsMp3`, `Kept`) and the derived items (`MakeItem`, `Items`).
  It renders each item with the template's exact whitespace (`RenderItem`,
  `RenderAll`). The loop that appends to `rssItems` is the method `BuildItems`.
- `handler.dfy`: module `Handler`. It holds the request, environment, listing
  and response types. `Handle` states the response as a function of the
  inputs, and `OnRequest` is the handler's early-return code, proved equal to
  it. The lemmas state each outcome.

Inputs that rss.js gets from its runtime are parameters here:

- the parsed request: the `podcast` parameter as an `Option`, `url.host` and
  `url.pathname`;
- the four environment variables, each an `Option`;
- the storage listing, as a function from (bucket, prefix) to either a listing,
  whose `objects` member may be absent, or a thrown error;
- the current time and each object's upload time, as already-formatted date
  strings.

The model follows the code in places where a reader might expect something else:

- 404 is given only when the raw listing is missing or empty. A listing
  that holds objects but no `.mp3` key gives 200 and a feed with no items
  (`Handler.NoMp3StillFeed`).
- `R2_ENDPOINT` is not part of the configuration check. When it is unset, the
  template writes `undefined` in front of every enclosure URL
  (`Handler.EndpointNotChecked`, `Handler.FeedItems`).
- The podcast name goes unescaped into the channel's title, link and
  description. The link is always `https://`. The description says "hosted on
  Cloudflare R2". The link line ends with the malformed `<!- ... -->` text.
  So the document is not claimed to be well-formed XML.
- The item title is `key.substring(prefix.length)`, whether or not the key
  starts with the prefix. A key shorter than the prefix gives an empty title
  (`Feed.ShortKeyEmptyTitle`).
- A `Response` built from a string without a content-type header gets
  `text/plain;charset=UTF-8`, as the Fetch standard says. Every non-200 answer
  carries that type.

## Model

| member | source | states |
|---|---|---|
| `Xml.EscapeChar` | functions/rss.js:79-85 | the `switch` case by case: a reserved character becomes its entity, which starts with `&` and ends with `;`; every other character is kept as it is |
| `Xml.Escape` | functions/rss.js:77-86 | the escaped text is at least as long as the input and holds no raw `<`, `>`, `'` or `"` |
| `Xml.EscapeAppend` | functions/rss.js:78 | the global replace treats each character on its own: escaping a concatenation is the concatenation of the escapes, so output order follows input order |
| `Xml.EscapeUnchangedIff` | functions/rss.js:78-85 | a string comes out unchanged exactly when it holds none of the five reserved characters |
| `Xml.EscapeAmpersands` | functions/rss.js:78-85 | every `&` in the output begins one of `&lt;`, `&gt;`, `&amp;`, `&apos;`, `&quot;` |
| `Xml.DecodeHead` | functions/rss.js:79-85 | the decoder reads one entity or one unreserved character, and what it reads is exactly the escape of the character it returns |
| `Xml.DecodeHeadEscape` | functions/rss.js:79-85 | each of the five replacements, and each unreserved character, is read back as the character it came from |
| `Xml.UnescapeEscape` | functions/rss.js:77-86 | decoding the entities of the escaped text gives back the input exactly |
| `Xml.EscapeUnescape` | functions/rss.js:77-86 | any text that decodes to `s` is exactly `Escape(s)` |
| `Xml.EscapeDecodes` | functions/rss.js:77-86 | `Escape(s) == t` if and only if `t` decodes to `s` |
| `Xml.EscapeInjective` | functions/rss.js:77-86 | different inputs never escape to the same text |
| `Decimal.Show` | functions/rss.js:47 | the size is written as at least one decimal digit, with no leading zero |
| `Decimal.ValueShow` | functions/rss.js:47 | reading the written digits gives back the size |
| `Decimal.ShowInjective` | functions/rss.js:47 | different sizes are written differently |
| `Feed.LowerChar` | functions/rss.js:38 | no contract; `toLowerCase` on one character: an ASCII capital becomes its small letter, every other character is kept; `Feed.IsMp3Iff` states what the suffix test makes of it |
| `Feed.Lower` | functions/rss.js:38 | no contract; `toLowerCase` on the key, character by character with `LowerChar`, keeping its length; `Feed.IsMp3Iff` characterises the test built on it |
| `Feed.IsMp3` | functions/rss.js:38 | no contract; the lower-cased `.mp3` suffix test, with ASCII case folding; `Feed.IsMp3Iff` characterises it |
| `Feed.IsMp3Iff` | functions/rss.js:38 | a key passes the lower-cased `.mp3` suffix test exactly when its last four characters are `.`, `m` or `M`, `p` or `P`, then `3` |
| `Feed.SubstringFrom` | functions/rss.js:40 | `substring(start)` gives the part of the key after `start` characters, or the empty string when `start` reaches past the end |
| `Feed.MakeItem` | functions/rss.js:39-41 | no contract; the title is `key.substring(prefix.length)`, the URL is the endpoint text, `/` and the key, the length is the size and the date is the upload date; `Feed.ItemOfPrefixedKey` states it for keys under the prefix |
| `Feed.RenderItem` | functions/rss.js:43-50 | no contract; the template literal of one item, whitespace included, with the title and URL escaped and the size in decimal; `Feed.RenderItemInjective` is its partner |
| `Feed.Items` | functions/rss.js:37-41 | no contract; `MakeItem` of each kept object, in listing order; `Feed.ItemCount` and `Feed.ItemAt` characterise it |
| `Feed.RenderAll` | functions/rss.js:36-50 | no contract; the item blocks joined in order, as `+=` builds `rssItems`; `Feed.RenderAllAppend` is its partner |
| `Feed.Kept` | functions/rss.js:37-38 | the kept objects are exactly the listed objects whose key passes the `.mp3` test, and there are no more of them than listed objects |
| `Feed.KeptAppend` | functions/rss.js:37-38 | filtering two listings one after the other is filtering their concatenation, so the relative order of the listing is kept |
| `Feed.ItemsAppendOne` | functions/rss.js:37-50 | one more listed object adds one item at the end if its key is `.mp3`, and none otherwise |
| `Feed.RenderAllAppend` | functions/rss.js:43 | the accumulated text of two runs of items is the text of the first run followed by that of the second |
| `Feed.RenderAllStep` | functions/rss.js:37-50 | one more listed object appends its `<item>` block to `rssItems` if its key is `.mp3`, and appends nothing otherwise |
| `Feed.Mp3PositionsAppendOne` | functions/rss.js:37-38 | one more listed object adds its own position to the set of `.mp3` positions exactly when its key passes the test |
| `Feed.ItemCount` | functions/rss.js:37-50 | the number of items equals the number of positions in the listing that hold an `.mp3` key |
| `Feed.ItemAt` | functions/rss.js:37-50 | the `.mp3` object at position `i` gives the item at the position equal to the number of `.mp3` objects before `i`, so items keep the listing's order |
| `Feed.NoItemsIff` | functions/rss.js:37-38 | there are no items exactly when no listed key passes the `.mp3` test |
| `Feed.ItemOfPrefixedKey` | functions/rss.js:39-41 | for key `prefix + rest` the title is `rest`, the URL is base, `/` and the key, the length is the size and the date is the upload date |
| `Feed.ShortKeyEmptyTitle` | functions/rss.js:40 | a key no longer than the prefix gets an empty title |
| `Feed.RenderItemInjective` | functions/rss.js:43-50 | the rendered `<item>` block determines the item: two items with the same block have the same title, URL, length and date |
| `Feed.MixedCaseKept` | functions/rss.js:37-38 | of `showA/a.mp3`, `showA/b.MP3` and `showA/notes.txt`, the filter keeps the first two |
| `Feed.MixedCaseListing` | functions/rss.js:37-41 | that listing under `showA/` gives two items, titled `a.mp3` and `b.MP3`, in listing order |
| `Feed.BuildItems` | functions/rss.js:36-52 | the loop leaves in `rssItems` the rendered items of the `.mp3` objects, in listing order |
| `Handler.NotFoundMessage` | functions/rss.js:33 | no contract; the 404 text naming the podcast and the prefix `name + "/"`; `Handler.EmptyListingNotFound` states when it is given |
| `Handler.StorageErrorMessage` | functions/rss.js:73 | no contract; the 500 text naming only the podcast; `Handler.StorageErrorHidesCause` states when it is given and that the cause does not reach it |
| `Handler.Truthy` | functions/rss.js:7 | no contract; JavaScript truthiness of a possibly missing string: present and non-empty |
| `Handler.TemplateText` | functions/rss.js:39 | no contract; a template literal writes an unset value as `undefined` |
| `Handler.ConfigComplete` | functions/rss.js:18 | no contract; bucket name, access key id and secret key are all truthy; the endpoint is not checked |
| `Handler.RawListingEmpty` | functions/rss.js:32 | no contract; the listing's `objects` member is missing or has length zero |
| `Handler.FeedDocument` | functions/rss.js:54-63 | no contract; the template literal of the document, whitespace included, with the podcast name unescaped in the channel lines; `Handler.FeedDocumentInjective` is its partner |
| `Handler.FeedDocumentInjective` | functions/rss.js:54-63 | for the same channel fields, two documents are equal only when their item text is equal: the items are embedded unchanged |
| `Handler.Handle` | functions/rss.js:3-75 | no contract; the response for each branch: 400, 500 for configuration, 500 for a storage error, 404, 200; the lemmas below state its properties |
| `Handler.OnRequest` | functions/rss.js:3-75 | the handler's early-return code gives exactly the response `Handle` states for its inputs |
| `Handler.StatusOutcomes` | functions/rss.js:7-73 | the status is 400, 500, 404 or 200, each in exactly its own circumstances; the XML content type goes with 200 and only with 200 |
| `Handler.MissingPodcast` | functions/rss.js:5-9 | a missing or empty `podcast` gives 400 with the fixed message, whatever the configuration, the listing and the clock |
| `Handler.MissingConfig` | functions/rss.js:11-21 | a missing or empty bucket name, access key id or secret key gives 500 with the fixed configuration message, whatever the podcast name and the listing |
| `Handler.EndpointNotChecked` | functions/rss.js:14-18 | changing or unsetting `R2_ENDPOINT` never changes the status |
| `Handler.StorageErrorHidesCause` | functions/rss.js:71-73 | a thrown listing error gives 500 with a body naming only the podcast; two errors with different causes give the same response |
| `Handler.EmptyListingNotFound` | functions/rss.js:32-34 | a missing or empty raw listing gives 404 with a body naming the podcast and the prefix `name + "/"` |
| `Handler.NoMp3StillFeed` | functions/rss.js:32-63 | a non-empty listing without `.mp3` keys gives 200 and a feed with no items |
| `Handler.FeedItems` | functions/rss.js:36-69 | a 200 body holds one item per `.mp3` object, in listing order; for a key under the prefix, the title is the rest of the key and the URL is the endpoint text, `/` and the key |

## Left out

- Date formatting is not modelled. The current time and each object's upload
  time come in as the strings `Date.prototype.toUTCString` would give.
- The R2 client is not modelled: its construction and its `list` call are
  an external service. A failure of the construction, which lies outside the
  `try`, is not modelled either.
- Reading `process.env` and parsing the URL are runtime services. This
  includes percent-decoding the parameter. Their results are inputs.
- `console.error` logging and `async`/`await` scheduling have no behaviour to
  verify.
- Feed.IsMp3: lower-cases ASCII letters only, not the full Unicode mapping of
  `toLowerCase`. No other character lower-cases to `.`, `m`, `p` or `3`, so
  the suffix test is unaffected.
- Feed.SubstringFrom: counts Unicode scalar values, where JavaScript counts
  UTF-16 code units. For a key that starts with the prefix both cut exactly
  after the prefix, whatever characters the podcast name holds. The cut
  differs only for a key that does not start with the prefix and has a
  character outside the Basic Multilingual Plane before the cut: with prefix
  `ab/` and key `😀xyz.mp3` JavaScript gives the title `yz.mp3` and the model
  `z.mp3`.
- Decimal.Show: always writes plain digits. JavaScript writes sizes of 10^21
  bytes or more in exponent notation.
- Every listed entry is taken to have a key and a size. An error thrown
  inside the `try` by a malformed entry is not modelled.
- Response headers other than the content type are not modelled.
- The document as a whole is not claimed to be well-formed XML: the channel
  lines hold the podcast name unescaped, and the link line holds a malformed
  comment.
