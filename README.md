# Qasa apartment notification bot: the verified core

This project models the core of a bot that polls the Qasa search API for
apartment listings and posts them to a Discord channel. The whole program is
one Go file, `main.go`. The model covers three parts of it:

- **The listing fetcher's mapping step** (`getListings`). Each decoded search
  node becomes one `Listing`. The image is the URL of the first upload with the
  smallest `order`. The location label is `route, locality`, or only the
  locality when there is no route. The link is built from the id. Everything
  else is copied unchanged.
- **The change tracker and dispatcher** (`monitorApartments`). It keeps the
  set of ids seen so far. The bootstrap pass marks every fetched listing seen
  and announces each one as an existing listing. Each ticker cycle then
  announces, as new, only the listings whose id has not been seen, and marks
  them seen. A failed fetch changes nothing. Without a channel id nothing is
  sent, but the set is still updated.
- **The formatting helpers** (`sendNotification`, `formatStartDate`). A
  description over 500 bytes is cut to 500 bytes plus `...`. A start date is
  shown as `<day><ordinal suffix> of <month name>`, or as `Not specified`.

Files and modules:

| file | module | models |
|---|---|---|
| `outcomes.dfy` | `Outcomes` | `Option`, and `Fetch` (the decoded value, or `Err`) |
| `listings.dfy` | `Listings` | nodes, uploads, `Listing`, and the node-to-listing loops |
| `format.dfy` | `Format` | truncation, decimal rendering, ordinal suffixes, month names, `FormatStartDate` |
| `messages.dfy` | `Messages` | the prefix and embed that `sendNotification` posts |
| `monitor.dfy` | `Monitor` | `Notification`, the scan that finds new listings, the `Tracker` class with `Bootstrap` and `Cycle` |
| `run.dfy` | `Run` | the polling loop over a sequence of fetch outcomes, and properties of whole runs |

Conventions:

- Go strings are byte strings. A Dafny `string` here holds one `char` per
  byte, so lengths and slices count bytes, as `len(s)` and `s[:500]` do in Go.
  Every literal the core adds is ASCII, except the house emoji in the message
  prefix. That emoji is written as its four UTF-8 bytes.
- The two send loops are held by the class `Monitor.Tracker`. Its fields are
  the `ChannelID` setting and a `seen: set<string>` (the source's `seenAds`
  map, whose values are always `true`). Each call of `sendNotification`
  appends one `Notification(listing, isNew)` to the sequence the method
  returns.
- The ticker becomes a sequence of fetch outcomes, one per tick.
  `Run.MonitorApartments` runs the bootstrap pass and then one cycle per
  element.
- The date parse `time.Parse(time.RFC3339, s)` is a parameter
  `parse: string -> Option<Date>`. A `Date` holds the day (1 to 31) and the
  month (1 to 12).

Two behaviours of the code that a reader might not expect, both
modelled as the code has them:

- Descriptions are cut at 500 bytes, not 500 characters, because Go's `len`
  and slicing count bytes.
- The bootstrap pass does not consult the seen-set before sending, so a batch
  that repeats an id announces it twice (`Monitor.Announce`,
  `Monitor.Tracker.Bootstrap`). Steady-state cycles never repeat an id
  (`Run.TicksNeverRepeat`).

## Model

| member | source | states |
|---|---|---|
| `Listings.FirstMinIndex` | main.go:258-268 | the position where a left-to-right scan with a strict `<` stops is the first upload with the smallest `order`: no upload has a smaller order, and every earlier upload has a larger one |
| `Listings.FirstMinimumUnique` | main.go:262-267 | only one position can be the first minimum, so ties always go to the earlier upload |
| `Listings.ImageURL` | main.go:257-268 | the image is `""` when there are no uploads; otherwise it is the URL of the upload that is the first minimum by `order` |
| `Listings.SelectImage` | main.go:257-268 | the imperative scan (start from upload 0, replace only on a strictly smaller order) returns exactly `ImageURL(uploads)` |
| `Listings.LocationLabel` | main.go:270-274 | the label ends with the locality; with a route it starts with `route + ", "` and is exactly that long; without a route it is the locality alone |
| `Listings.LocationLabelDeterminesRoute` | main.go:271-274 | for a fixed locality, two equal labels come from the same route, empty or not |
| `Listings.Link` | main.go:282 | the link is the fixed URL prefix `https://qasa.se/home/` followed by exactly the id |
| `Listings.LinkInjective` | main.go:282 | distinct ids give distinct links |
| `Listings.ToListing` | main.go:276-288 | a node's id, title, description, rent, room count, start date and size are copied; the image is `""` without uploads and otherwise the URL of a first-minimum upload; the link is the fixed prefix followed by the id; the location is the node's location label |
| `Listings.MapNodes` | main.go:254-289 | the mapping loop gives exactly one listing per node, in node order; listing i is `ToListing(node i)`, with fields copied, the link from the id, the label from the location and the first-minimum image |
| `Listings.GetListings` | main.go:249-291 | a failed fetch or decode gives `Err` and never partial results; a successful one gives every node mapped, in order |
| `Format.TruncateDescription` | main.go:171-175 | a description of at most 500 bytes is unchanged; a longer one becomes its first 500 bytes followed by `...`, 503 bytes in all |
| `Format.TruncateBoundedAndIdempotent` | main.go:172-175 | the shown text is never longer than 503 bytes and keeps the original's first bytes; truncating it again changes nothing |
| `Format.NatToString` | main.go:160 | `%d` of a non-negative number is a non-empty string of decimal digits, one character long exactly for numbers below 10, and with no leading zero |
| `Format.DecimalRoundTrip` | main.go:160 | reading the printed digits back as a decimal number gives the number printed |
| `Format.OrdinalSuffix` | main.go:143-158 | the suffix is `st`, `nd` or `rd` when `day % 10` is 1, 2 or 3, except on days 11, 12 and 13; in every other case, and on those three days, it is `th` |
| `Format.OrdinalSuffixIsEnglish` | main.go:142-158 | for every day of a month, the suffix agrees with the general English rule (numbers ending in 11, 12 or 13 take `th`, otherwise the last digit decides) |
| `Format.OrdinalExamplesFirstDays` | main.go:143-160 | days 1, 2, 3 and 4 render as `1st`, `2nd`, `3rd` and `4th` |
| `Format.OrdinalExamplesTeens` | main.go:143-160 | days 11, 12 and 13 render as `11th`, `12th` and `13th` |
| `Format.OrdinalExamplesTwenties` | main.go:143-160 | days 21 and 22 render as `21st` and `22nd` |
| `Format.RenderDateExample` | main.go:143-160 | 21 August renders as `21st of August` |
| `Format.MonthNameInjective` | main.go:160 | the twelve month names are pairwise distinct |
| `Format.DayOrdinal` | main.go:143-160 | the day part ends with the day's two-letter ordinal suffix after at least one digit, and is three characters long exactly for days below 10 |
| `Format.DayOrdinalReadsBack` | main.go:160 | the part of the day text in front of the suffix is decimal digits that read back as the day |
| `Format.MonthName` | main.go:160 | `t.Format("January")` gives a capitalised English month name of 3 to 9 letters with no digit in it |
| `Format.RenderDate` | main.go:143-160 | a rendered date starts with a digit and ends with the month's name |
| `Format.RenderDateInjective` | main.go:143-160 | two dates that render to the same text are the same date, so the rendering loses neither the day nor the month |
| `Format.RenderDateIsNotPlaceholder` | main.go:131-160 | a rendered date is never the text `Not specified` |
| `Format.FormatStartDate` | main.go:131-161 | the result is `Not specified` exactly when the date string is empty or does not parse; otherwise it is the rendered parsed date |
| `Messages.Render` | main.go:164-190 | the prefix is the "NEW" prefix exactly when the notification is new and the "Apartment for rent" prefix exactly when it is not; the embed carries the listing's title, link and image, the truncated description (at most 503 bytes), the formatted start date, the listing's rent, location label, room count and size unchanged, and the green colour `0x00FF00` |
| `Monitor.Announce` | main.go:98-107 | one notification per listing, in the listings' order and with one framing; the bootstrap applies it to the whole batch, so a repeated id is announced once per occurrence |
| `Monitor.NewListings` | main.go:118-127 | the scan that checks and updates the seen-set as it goes announces at most as many listings as the batch has, none of them with an id seen before the cycle |
| `Monitor.AfterFetch` | main.go:98-121 | after a successful fetch the seen-set is the old set plus exactly the batch's ids; after a failed one it is unchanged; it never shrinks |
| `Monitor.BootstrapSends` | main.go:98-107 | with a channel and a successful fetch the bootstrap sends one notification per fetched listing, in order, all framed as existing; otherwise it sends nothing |
| `Monitor.CycleSends` | main.go:111-127 | a cycle sends nothing without a channel or after a failed fetch; every notification it sends is framed as new, for an id not seen before the cycle, and there are at most as many as the batch has listings |
| `Monitor.NewListingsAreUnseen` | main.go:118-127 | every listing a cycle announces comes from the batch, and its id was not seen before the cycle |
| `Monitor.NewListingsIds` | main.go:118-127 | the set of ids a cycle announces equals the batch's ids minus the ids seen before the cycle |
| `Monitor.NewListingsDistinct` | main.go:118-127 | a cycle never announces an id twice, even when the batch repeats it |
| `Monitor.NewListingsInBatchOrder` | main.go:118-127 | a cycle announces listings in batch order, as a subsequence of the batch |
| `Monitor.NewListingsOfSeenBatch` | main.go:119 | a batch whose ids have all been seen announces nothing |
| `Monitor.NewListingsAppend` | main.go:118-127 | scanning `a + b` in one cycle announces what a cycle over `a` followed by a cycle over `b` announces |
| `Monitor.CycleReplayIsSilent` | main.go:111-127 | a cycle given the batch that was just absorbed sends nothing and leaves the seen-set unchanged |
| `Monitor.Tracker.constructor` | main.go:19-21 | a new tracker has the given channel id and an empty seen-set |
| `Monitor.Tracker.Bootstrap` | main.go:93-109 | on success every fetched id is added and every listing is announced as existing, in order, if a channel is set; a failed fetch changes nothing and sends nothing |
| `Monitor.Tracker.Cycle` | main.go:112-127 | on success the seen-set becomes the old set plus the batch's ids, and the sends are the batch's unseen listings, framed as new, if a channel is set; a failed fetch skips the cycle |
| `Run.MonitorApartments` | main.go:88-128 | the polling loop (bootstrap, then one cycle per tick) ends with the seen-set `RunSeen` and sends exactly `RunSends` |
| `Run.SeenNeverShrinks` | main.go:99-121 | the seen-set never shrinks: after more ticks it is a superset of the set after fewer ticks, and of the starting set |
| `Run.SeenIsFetchedIds` | main.go:111-127 | an id is seen after the ticks exactly when it was seen before or some successful fetch among them carried it; failed fetches add nothing |
| `Run.NoChannelTicksSendNothing` | main.go:123-125 | without a channel no cycle sends anything |
| `Run.NoChannelRunSendsNothing` | main.go:101-125 | without a channel the whole run sends nothing; the seen-set does not depend on the channel |
| `Run.CycleSendsAreNew` | main.go:118-127 | each cycle notification is framed as new, and its id is unseen before the cycle and seen after it; no id repeats |
| `Run.TicksSendOnlyNew` | main.go:111-128 | across all cycles every notification is framed as new, its id is unseen when the cycles begin and seen at their end |
| `Run.TicksNeverRepeat` | main.go:111-128 | across all cycles no id is ever notified twice |
| `Run.ReplayedTickIsSilent` | main.go:111-127 | a tick that fetches the same batch as the tick before it sends nothing and changes nothing |
| `Run.ScenarioBootstrap` | main.go:93-109 | a bootstrap fetch with three distinct ids tracks three ids and announces all three as existing, in order |
| `Run.ScenarioOneNew` | main.go:111-127 | after that bootstrap, a tick that fetches the three and a fourth announces only the fourth, as new, and tracks four ids |

## Left out

- HTTP and JSON: building the request, sending it, and decoding the response
  (main.go:202-251) are input and output through Go libraries. The decoded
  nodes are the model's input, and any failure there is `Err`.
- Discord: creating, opening and closing the session, the `messageCreate`
  handler, and `ChannelMessageSendComplex` (main.go:43-85, 192-198) are calls
  into the discordgo library. A send is modelled as appending to the returned
  sequence. A failed send is only logged in the source and does not change
  the seen-set, so the model leaves out send failures.
- Timing: the 60-second ticker and the 1-second sleep between bootstrap sends
  (main.go:89, 103) are replaced by the sequence of fetch outcomes, with
  nothing in between them.
- Process plumbing: flag parsing, signal handling and the goroutine
  (main.go:37-41, 65-74) are configuration and concurrency.
- Logging: the `fmt.Println`/`Printf` lines are not modelled.
- Date parsing: `time.Parse` with RFC 3339 is the `parse` parameter. The model
  does not say which strings parse. `t.Format("January")` is the twelve-entry
  month table.
- Floating point and format strings: `RoomCount` is a float64, kept only as
  its bit pattern and copied. The embed body's `Sprintf` (main.go:183-184)
  with `%d`, `%.0f` and the `m²` unit is not rendered. `Messages.Render`
  keeps rent, location, room count and size as separate fields.
- The embed's timestamp, `time.Now()` (main.go:189), reads the clock and is
  not modelled.
- Integer width: `Rent` and `SquareMeters` are Go `int`s; JSON decoding
  rejects values that do not fit, so in the model they are plain integers.
