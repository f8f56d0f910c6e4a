/**
 * `pr_get_api_data`: a read-through cache over the one transient `pr_api_data`.
 * A hit returns the stored catalog untouched. A miss issues one GET to the
 * configured URL; a transport error returns an empty catalog and stores
 * nothing, any response body is decoded and stored (an empty catalog when it
 * is neither a JSON array nor a JSON object, that is, not a PHP array once
 * decoded) with an expiration of hours times 3600 seconds.
 *
 * The network call and `json_decode` are not modelled: the caller supplies the
 * `FetchResult` the GET would produce, already decoded. The host's expiry of
 * the transient is the same state change as deleting it.
 */
module Cache {
  import opened Wrappers
  import opened Catalog
  import opened Settings

  /** The body after `json_decode( $body, true )`: a PHP array of nodes, or anything else.
      `ArrayBody(items)` stands for a JSON array and for a JSON object alike, an object given by
      its member values in order; `NotArray` is any other JSON value, or a body that fails to decode. */
  datatype JsonBody = NotArray | ArrayBody(items: Catalog)

  /** What `wp_remote_get` returns: a `WP_Error`, or a response with a body. */
  datatype FetchResult = TransportError | Response(body: JsonBody)

  /** The stored transient: its value and the expiration it was set with, in seconds. */
  datatype CacheEntry = CacheEntry(payload: Catalog, expiration: int)

  /** One call: the catalog returned, the transient afterwards, and the URL fetched, if any. */
  datatype Lookup = Lookup(data: Catalog, entry: Option<CacheEntry>, fetchedFrom: Option<string>)

  /** The state transition of one `pr_get_api_data` call. */
  function ReadThrough(entry: Option<CacheEntry>, settings: PluginSettings, response: FetchResult): (r: Lookup)
    // a hit: the cached value, no fetch, the transient untouched
    ensures entry.Some? ==> r == Lookup(entry.value.payload, entry, None)
    // a miss always fetches the configured URL
    ensures entry.None? ==> r.fetchedFrom == Some(settings.apiUrl)
    // nothing is stored exactly when a miss meets a transport error, and then the result is empty
    ensures r.entry.None? <==> entry.None? && response.TransportError?
    ensures r.entry.None? ==> r.data == []
    // whatever is stored is what is returned, and a fresh entry carries the configured expiration
    ensures r.entry.Some? ==> r.entry.value.payload == r.data
    ensures entry.None? && r.entry.Some? ==> r.entry.value.expiration == settings.transientExpiration
    // a body that is not an array is cached as the empty catalog; an array is cached as decoded
    ensures entry.None? && response == Response(NotArray) ==> r.entry == Some(CacheEntry([], settings.transientExpiration))
    ensures entry.None? && response.Response? && response.body.ArrayBody? ==> r.data == response.body.items
  {
    match entry
    case Some(e) => Lookup(e.payload, entry, None)
    case None =>
      match response
      case TransportError => Lookup([], None, Some(settings.apiUrl))
      case Response(body) =>
        var data := if body.ArrayBody? then body.items else [];
        Lookup(data, Some(CacheEntry(data, settings.transientExpiration)), Some(settings.apiUrl))
  }

  /** Successive calls, each meeting the transient the previous one left; `responses[i]` is what the
      i-th call's GET would return if it made one. */
  function Calls(entry: Option<CacheEntry>, settings: PluginSettings, responses: seq<FetchResult>): (ls: seq<Lookup>)
    ensures |ls| == |responses|
    decreases |responses|
  {
    if responses == [] then []
    else
      var r := ReadThrough(entry, settings, responses[0]);
      [r] + Calls(r.entry, settings, responses[1..])
  }

  /** How many of the calls went to the network. */
  function FetchCount(ls: seq<Lookup>): nat
    decreases |ls|
  {
    if ls == [] then 0 else (if ls[0].fetchedFrom.Some? then 1 else 0) + FetchCount(ls[1..])
  }

  /** How many responses, from the start, are transport errors. */
  function LeadingErrors(responses: seq<FetchResult>): (n: nat)
    ensures n <= |responses|
    decreases |responses|
  {
    if responses == [] || !responses[0].TransportError? then 0 else 1 + LeadingErrors(responses[1..])
  }

  /** While an entry is stored, every call returns it and none fetches. */
  lemma {:induction false} StoredEntryServesEveryCall(e: CacheEntry, settings: PluginSettings, responses: seq<FetchResult>)
    ensures forall i :: 0 <= i < |responses| ==> Calls(Some(e), settings, responses)[i] == Lookup(e.payload, Some(e), None)
    ensures FetchCount(Calls(Some(e), settings, responses)) == 0
    decreases |responses|
  {
    if responses != [] {
      StoredEntryServesEveryCall(e, settings, responses[1..]);
    }
  }

  /** From an empty transient, every call fetches until one gets a response body (an array or not);
      from then on none does. A failing endpoint is therefore asked again on every call. */
  lemma {:induction false} FetchesUntilFirstResponse(settings: PluginSettings, responses: seq<FetchResult>)
    ensures FetchCount(Calls(None, settings, responses)) ==
            if LeadingErrors(responses) == |responses| then |responses| else LeadingErrors(responses) + 1
    decreases |responses|
  {
    if responses != [] {
      var r := ReadThrough(None, settings, responses[0]);
      if responses[0].TransportError? {
        FetchesUntilFirstResponse(settings, responses[1..]);
      } else {
        StoredEntryServesEveryCall(r.entry.value, settings, responses[1..]);
      }
    }
  }

  /** The transient store, restricted to the key `pr_api_data`. */
  class TransientStore {
    var apiData: Option<CacheEntry>

    constructor ()
      ensures apiData == None
    {
      apiData := None;
    }

    /** `delete_transient( 'pr_api_data' )`; the host's expiry of the entry has the same effect. */
    method Delete()
      modifies this
      ensures apiData == None
    {
      apiData := None;
    }
  }

  /** `pr_get_api_data`, reading the settings from `options` and facing `response` if it fetches. */
  method GetApiData(options: OptionStore, cache: TransientStore, response: FetchResult)
    returns (data: Catalog, fetchedFrom: Option<string>)
    modifies cache
    ensures Lookup(data, cache.apiData, fetchedFrom) == ReadThrough(old(cache.apiData), options.Current(), response)
  {
    var settings := GetPluginSettings(options.apiUrl, options.transientHours);
    var cached := cache.apiData;
    if cached.None? {
      fetchedFrom := Some(settings.apiUrl);
      if response.TransportError? {
        data := [];
        return;
      }
      data := if response.body.ArrayBody? then response.body.items else [];
      cache.apiData := Some(CacheEntry(data, settings.transientExpiration));
    } else {
      data, fetchedFrom := cached.value.payload, None;
    }
  }

  /** Deleting the transient (`delete_transient`, or its expiry) and then reading it: the read
      fetches the configured URL, and the transient is refilled unless the fetch fails. */
  method ReadAfterDelete(options: OptionStore, cache: TransientStore, response: FetchResult)
    returns (data: Catalog, fetchedFrom: Option<string>)
    modifies cache
    ensures fetchedFrom == Some(options.Current().apiUrl)
    ensures cache.apiData.None? <==> response.TransportError?
    ensures cache.apiData.Some? ==> cache.apiData.value == CacheEntry(data, options.Current().transientExpiration)
  {
    cache.Delete();
    data, fetchedFrom := GetApiData(options, cache, response);
  }
}
