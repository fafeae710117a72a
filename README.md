# NetNewsWire bookkeeping cores, modelled in Dafny

NetNewsWire is a feed reader for macOS and iOS. This project models three small
pieces of stateful bookkeeping from it and proves what they promise:

- **Smart-feed unread counts** (`smart_feed.dfy`, module `SmartFeeds`). A smart feed
  ("All Unread", "Today", …) aggregates articles across accounts. It stores the last
  unread count received for each account ID and shows a total. Refreshing drops the
  counts of accounts that are no longer active and asks each active account for its
  count. Each answer that arrives is stored and the total is recomputed as the sum of
  the stored counts of the active accounts. Setting the total posts an
  unread-count-did-change notification only when the value really changes. The active
  accounts are a parameter (a sequence of account IDs). The asynchronous answer of one
  account is an `Option<int>` argument. Posted notifications are counted in a field.
- **Feedly stream contents** (`feedly_stream_contents.dfy`, module
  `FeedlyStreamContents`). The operation that fetches one page of a Feedly stream
  exposes the stream's entries and the set of articles parsed from them. The parsed
  set is computed once and cached, and installing a new stream clears the cache. The
  entry parser is an opaque function from an entry to an optional parsed item.
- **Generated favicons** (`favicon_generator.dfy`, module `Favicons`). A feed with no
  favicon gets the favicon template tinted with a colour hashed from its URL. Tinted
  icons are cached per URL. When tinting fails, the untinted template is returned and
  nothing is cached. The colour hash and the masking are one opaque function from a
  URL to an optional image.

`wrappers.dfy` holds the `Option` type used for Swift optionals.

## Model

| member | source | states |
|---|---|---|
| `SmartFeeds.SmartFeed.constructor` | Shared/SmartFeeds/SmartFeed.swift:51-57 | a new smart feed has no stored counts, a total of 0 and has posted nothing |
| `SmartFeeds.SmartFeed.SetUnreadCount` | Shared/SmartFeeds/SmartFeed.swift:32-38 | the total takes the new value, and one notification is posted exactly when the new value differs from the old one |
| `SmartFeeds.SmartFeed.UpdateUnreadCount` | Shared/SmartFeeds/SmartFeed.swift:127-134 | the total becomes the left-to-right sum over the active accounts of their stored counts, 0 for an account with none; a notification is posted exactly when the total changes |
| `SmartFeeds.SmartFeed.FetchUnreadCounts` | Shared/SmartFeeds/SmartFeed.swift:65-81 | afterwards a key is stored exactly when it was stored before and is active, stored values are unchanged, and the sum over the active accounts is unchanged; with no active account the map is empty and the total is 0; otherwise the total is untouched until the answers arrive |
| `SmartFeeds.SmartFeed.ReceiveUnreadCount` | Shared/SmartFeeds/SmartFeed.swift:114-125 | a failed fetch changes neither the map, the total nor the notifications; a received count replaces only that account's entry and the total is recomputed; if the total was up to date, it moves by the new count minus the account's old contribution |
| `SmartFeeds.Contribution` | Shared/SmartFeeds/SmartFeed.swift:129-132 | one account's share of the total: its stored count, or 0 when none is stored; what the lemmas below and `UpdateUnreadCount` measure the total in |
| `SmartFeeds.TotalUnread` | Shared/SmartFeeds/SmartFeed.swift:128-133 | the left fold of `Contribution` over the active IDs; `UpdateUnreadCount` assigns it, and `InactiveCountsIgnored`, `StoreShiftsTotal` and `TotalBoundsEachAccount` prove what it depends on and how it moves |
| `SmartFeeds.InactiveCountsIgnored` | Shared/SmartFeeds/SmartFeed.swift:128-133 | counts stored under inactive IDs never affect the total: two maps that agree on every active account give the same total |
| `SmartFeeds.StoreShiftsTotal` | Shared/SmartFeeds/SmartFeed.swift:121-133 | for distinct active IDs, storing `v` for an account shifts the total by `v` minus its old contribution if it is active, and leaves the total unchanged otherwise |
| `SmartFeeds.TotalBoundsEachAccount` | Shared/SmartFeeds/SmartFeed.swift:127-134 | with non-negative stored counts the total is non-negative and is at least every active account's count |
| `FeedlyStreamContents.CompactMap` | Feedly/Sources/Feedly/Operations/FeedlyGetStreamContentsOperation.swift:53-55 | keeping only the successful parses never yields more items than there are entries |
| `FeedlyStreamContents.ParseEntries` | Feedly/Sources/Feedly/Operations/FeedlyGetStreamContentsOperation.swift:53-55 | the set of the successful parses of the entries; `ParsedEntriesAreParses` and `ParsedNoMoreThanEntries` state what it holds and how large it is, and `ParsedEntries` is proved to return it |
| `FeedlyStreamContents.CompactMapMembers` | Feedly/Sources/Feedly/Operations/FeedlyGetStreamContentsOperation.swift:53-55 | an item is kept if and only if it is the successful parse of some entry |
| `FeedlyStreamContents.ParsedEntriesAreParses` | Feedly/Sources/Feedly/Operations/FeedlyGetStreamContentsOperation.swift:53-55 | every element of the parsed set is the parse of some entry, and every successful parse of an entry is in the parsed set |
| `FeedlyStreamContents.ParsedNoMoreThanEntries` | Feedly/Sources/Feedly/Operations/FeedlyGetStreamContentsOperation.swift:53-57 | the parsed set never has more elements than there are entries |
| `FeedlyStreamContents.GetStreamContentsOperation.constructor` | Feedly/Sources/Feedly/Operations/FeedlyGetStreamContentsOperation.swift:85-93 | resource, continuation, cut-off date and unread-only flag are stored as given (continuation and flag default to none); no stream and no cached parse yet, so the entries are empty; the provider name is the given resource's ID |
| `FeedlyStreamContents.GetStreamContentsOperation.FromProvider` | Feedly/Sources/Feedly/Operations/FeedlyGetStreamContentsOperation.swift:95-98 | the convenience initialiser takes the provider's resource and stores no continuation; the entries start empty and the provider name is the provider's resource ID |
| `FeedlyStreamContents.GetStreamContentsOperation.ParsedItemProviderName` | Feedly/Sources/Feedly/Operations/FeedlyGetStreamContentsOperation.swift:35-37 | the resource's ID: the initialisers' contracts state it equals the ID of the resource (or provider's resource) they were given |
| `FeedlyStreamContents.GetStreamContentsOperation.Entries` | Feedly/Sources/Feedly/Operations/FeedlyGetStreamContentsOperation.swift:39-46 | the stream's items, or the empty list when no stream has arrived: the initialisers' contracts state the entries are empty, and `SetStream`'s that they are the new stream's items |
| `FeedlyStreamContents.GetStreamContentsOperation.SetStream` | Feedly/Sources/Feedly/Operations/FeedlyGetStreamContentsOperation.swift:69-73 | installing a stream makes the entries that stream's items and clears the cached parsed set, which keeps the cache coherent |
| `FeedlyStreamContents.GetStreamContentsOperation.ParsedEntries` | Feedly/Sources/Feedly/Operations/FeedlyGetStreamContentsOperation.swift:48-67 | the result is always the parse of the current entries and has no more elements than they do; a filled cache is returned unchanged; afterwards the cache holds the result |
| `Favicons.FaviconGenerator.constructor` | Shared/Favicons/FaviconGenerator.swift:15 | the cache starts empty |
| `Favicons.FaviconGenerator.Favicon` | Shared/Favicons/FaviconGenerator.swift:17-32 | a hit returns the cached icon and leaves the cache alone; a miss with a successful mask caches the new icon under the URL and returns it; a failed mask returns the plain template and leaves the cache alone; existing entries are never changed or removed; every result has background suppression on and equals `GeneratedIcon`, the icon computed without a cache, so the cache is invisible to callers |
| `Favicons.FaviconTwice` | Shared/Favicons/FaviconGenerator.swift:19-27 | two calls for the same feed return the same icon, and after a successful mask the icon is in the cache |

## Left out

- The OAuth sign-in operation (`Account/Sources/Account/Feedly/OAuthAccountAuthorizationOperation.swift`) is not part of this model: it presents a platform web-authentication session, exchanges the code over the network and stores credentials in the keychain.
- The timeline cell layout and the scripting protocol of the main window are not part of this model: the first is floating-point geometry over font metrics that are not available, the second declares no logic.
- `GetStreamContentsOperation.run` (the network request, the delegate callback and finishing the operation) is not modelled; the stream it receives is installed with `SetStream`. The debug log of dropped entry IDs in `parsedEntries` is left out because it only logs.
- The request's service and log objects are not fields of `GetStreamContentsOperation`: the service is used only by `run`, and the log only by `run` and by the debug log of dropped entry IDs in `parsedEntries` (both left out).
- `FeedlyStreamContents.GetStreamContentsOperation.Entries`: follows release-build behaviour; reading the entries before a stream has arrived triggers an assertion failure (a trap) in debug builds, while the model, like a release build, returns the empty list.
- `SmartFeeds.SmartFeed.ReceiveUnreadCount`: follows main-actor behaviour; the callback asserts it runs on the main actor and traps otherwise, while the model accepts every delivery as if it arrived there.
- `SmartFeed`: observer registration with the notification center, the coalescing queue that schedules `fetchUnreadCounts`, the article-fetching delegations, the pasteboard writer and the display name and icon pass-throughs are platform wiring and are left out. The asynchronous per-account fetches started by `FetchUnreadCounts` are not represented as state; their answers are delivered by calling `ReceiveUnreadCount`, in any order and for any account.
- `SmartFeeds.SmartFeed.UpdateUnreadCount`: counts are unbounded integers, so Swift's trap on 64-bit overflow of the sum is not modelled.
- `SmartFeeds.StoreShiftsTotal` and `SmartFeeds.SmartFeed.ReceiveUnreadCount`: the exact shift of the total is stated only for distinct active account IDs, as the account manager provides them.
- The colour hash, the template masking and icon construction in `FaviconGenerator` are opaque image code, represented by a deterministic function from URL to optional image; the process-wide static cache is the `cache` field of one `FaviconGenerator` object.
- The entry parser is represented by an opaque deterministic function; what it extracts from an entry is not modelled.
