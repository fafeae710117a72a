/**
 * The operation that fetches the contents of one Feedly stream (a collection,
 * a category, a feed) and hands its entries, and the articles parsed from them,
 * to the operations that depend on it.
 *
 * The network request itself is outside this model: the stream it returns is
 * installed with `SetStream`. The entry parser is a deterministic function from
 * one entry to an optional parsed item, given to the constructor.
 */
module FeedlyStreamContents {
  import opened Wrappers

  /** A point in time; only passed through to the request. */
  type Date = int

  datatype ResourceID = ResourceID(id: string)

  /** Anything that names the resource whose stream is fetched. */
  datatype ResourceProvider = ResourceProvider(resource: ResourceID)

  datatype FeedlyEntry = FeedlyEntry(id: string, title: Option<string>, content: Option<string>, published: Option<Date>)

  datatype ParsedItem = ParsedItem(uniqueID: string, title: Option<string>, contentHTML: Option<string>, datePublished: Option<Date>)

  /** One page of a stream: its entries in order and the cursor of the next page. */
  datatype FeedlyStream = FeedlyStream(id: string, updated: Option<Date>, continuation: Option<string>, items: seq<FeedlyEntry>)

  /** `compactMap`: the successful parses of the entries, in their order. */
  function CompactMap(entries: seq<FeedlyEntry>, parse: FeedlyEntry -> Option<ParsedItem>): (items: seq<ParsedItem>)
    ensures |items| <= |entries|
  {
    if entries == [] then []
    else
      var rest := CompactMap(entries[1..], parse);
      match parse(entries[0])
      case Some(item) => [item] + rest
      case None => rest
  }

  /** The parsed entries as a set, as NetNewsWire's Swift code collects them
      (`Set` over the `compactMap`). */
  function ParseEntries(entries: seq<FeedlyEntry>, parse: FeedlyEntry -> Option<ParsedItem>): set<ParsedItem> {
    set item | item in CompactMap(entries, parse)
  }

  /** An item is kept exactly when it is the successful parse of some entry. */
  lemma {:induction false} CompactMapMembers(entries: seq<FeedlyEntry>, parse: FeedlyEntry -> Option<ParsedItem>, item: ParsedItem)
    ensures item in CompactMap(entries, parse) <==> exists i :: 0 <= i < |entries| && parse(entries[i]) == Some(item)
  {
    if entries != [] {
      CompactMapMembers(entries[1..], parse, item);
      if exists i :: 0 <= i < |entries| && parse(entries[i]) == Some(item) {
        var i :| 0 <= i < |entries| && parse(entries[i]) == Some(item);
        if i > 0 {
          assert parse(entries[1..][i - 1]) == Some(item);
        }
      }
      if exists i :: 0 <= i < |entries[1..]| && parse(entries[1..][i]) == Some(item) {
        var i :| 0 <= i < |entries[1..]| && parse(entries[1..][i]) == Some(item);
        assert parse(entries[i + 1]) == Some(item);
      }
    }
  }

  /** Every parsed entry is the parse of some entry, and every successful parse is
      among the parsed entries. */
  lemma ParsedEntriesAreParses(entries: seq<FeedlyEntry>, parse: FeedlyEntry -> Option<ParsedItem>)
    ensures forall item :: item in ParseEntries(entries, parse) ==>
              exists i :: 0 <= i < |entries| && parse(entries[i]) == Some(item)
    ensures forall i :: 0 <= i < |entries| && parse(entries[i]).Some? ==>
              parse(entries[i]).value in ParseEntries(entries, parse)
  {
    forall item | item in ParseEntries(entries, parse)
      ensures exists i :: 0 <= i < |entries| && parse(entries[i]) == Some(item)
    {
      CompactMapMembers(entries, parse, item);
    }
    forall i | 0 <= i < |entries| && parse(entries[i]).Some?
      ensures parse(entries[i]).value in ParseEntries(entries, parse)
    {
      CompactMapMembers(entries, parse, parse(entries[i]).value);
    }
  }

  /** A set built from a sequence has no more elements than the sequence. */
  lemma {:induction false} SetOfSeqNoLarger(items: seq<ParsedItem>)
    ensures |set item | item in items| <= |items|
  {
    if items != [] {
      SetOfSeqNoLarger(items[1..]);
      assert (set item | item in items) == (set item | item in items[1..]) + {items[0]};
    }
  }

  /** Parsing can drop entries (failed parses, duplicates) but never adds any. */
  lemma ParsedNoMoreThanEntries(entries: seq<FeedlyEntry>, parse: FeedlyEntry -> Option<ParsedItem>)
    ensures |ParseEntries(entries, parse)| <= |entries|
  {
    SetOfSeqNoLarger(CompactMap(entries, parse));
  }

  class GetStreamContentsOperation {
    const resource: ResourceID
    const continuation: Option<string>
    const newerThan: Option<Date>
    const unreadOnly: Option<bool>
    /** The entry parser; it turns one entry into a parsed item or fails. */
    const parse: FeedlyEntry -> Option<ParsedItem>

    /** The stream that arrived, if any; set once the request finishes. */
    var stream: Option<FeedlyStream>
    /** The parsed entries, once computed for the current stream. */
    var storedParsedEntries: Option<set<ParsedItem>>

    /** The cache, when filled, holds the parse of the current stream's entries. */
    ghost predicate Valid()
      reads this
    {
      storedParsedEntries.Some? ==> storedParsedEntries.value == ParseEntries(Entries(), parse)
    }

    constructor (resource: ResourceID, continuation: Option<string> := None, newerThan: Option<Date>,
                 unreadOnly: Option<bool> := None, parse: FeedlyEntry -> Option<ParsedItem>)
      ensures this.resource == resource && this.continuation == continuation
      ensures this.newerThan == newerThan && this.unreadOnly == unreadOnly && this.parse == parse
      ensures stream == None && storedParsedEntries == None
      ensures ParsedItemProviderName() == resource.id && Entries() == []
      ensures Valid()
    {
      this.resource := resource;
      this.continuation := continuation;
      this.newerThan := newerThan;
      this.unreadOnly := unreadOnly;
      this.parse := parse;
      stream := None;
      storedParsedEntries := None;
    }

    /** The convenience initialiser: takes the resource from a provider and never
        passes a continuation. */
    constructor FromProvider(provider: ResourceProvider, newerThan: Option<Date>,
                             unreadOnly: Option<bool> := None, parse: FeedlyEntry -> Option<ParsedItem>)
      ensures resource == provider.resource && continuation == None
      ensures this.newerThan == newerThan && this.unreadOnly == unreadOnly && this.parse == parse
      ensures stream == None && storedParsedEntries == None
      ensures ParsedItemProviderName() == provider.resource.id && Entries() == []
      ensures Valid()
    {
      resource := provider.resource;
      continuation := None;
      this.newerThan := newerThan;
      this.unreadOnly := unreadOnly;
      this.parse := parse;
      stream := None;
      storedParsedEntries := None;
    }

    /** The name under which parsed items are reported: the resource's ID. */
    function ParsedItemProviderName(): string {
      resource.id
    }

    /** The stream's entries, or none when no stream has arrived. */
    function Entries(): seq<FeedlyEntry>
      reads this
    {
      match stream
      case Some(s) => s.items
      case None => []
    }

    /** Installing a stream discards the parsed entries of the previous one. */
    method SetStream(s: FeedlyStream)
      modifies this`stream, this`storedParsedEntries
      ensures stream == Some(s) && storedParsedEntries == None
      ensures Entries() == s.items
      ensures Valid()
    {
      stream := Some(s);
      storedParsedEntries := None;
    }

    /** The parsed entries: taken from the cache when it is filled, otherwise computed
        from the entries and stored. */
    method ParsedEntries() returns (parsed: set<ParsedItem>)
      requires Valid()
      modifies this`storedParsedEntries
      ensures Valid()
      ensures parsed == ParseEntries(Entries(), parse)
      ensures |parsed| <= |Entries()|
      ensures old(storedParsedEntries).Some? ==> parsed == old(storedParsedEntries).value
      ensures storedParsedEntries == Some(parsed)
    {
      ParsedNoMoreThanEntries(Entries(), parse);
      if storedParsedEntries.Some? {
        return storedParsedEntries.value;
      }
      parsed := ParseEntries(Entries(), parse);
      storedParsedEntries := Some(parsed);
    }
  }
}
