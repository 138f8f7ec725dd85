/**
 * The in-memory development store of the URL shortener: a dictionary from
 * short code to mapping record, with five operations over it.
 *
 * The operations are specified first as pure functions over a `Table` (the
 * dictionary's value); the class `MockURLMapping` then holds that dictionary
 * as a field, updates it in place, and proves each method against the
 * matching function.
 */
module MockDatabase {

  datatype Option<T> = None | Some(value: T)

  /** The timestamp every new record carries; treated as an opaque string. */
  const CreatedAt: string := "2025-08-06T10:30:00Z"

  /** The error message of a lookup miss. */
  const NotFoundError: string := "Short code not found"

  /** The name the development setup reports for its collection. */
  const MockCollection: string := "mock_collection"

  /** One stored mapping. `createdByIp` is `None` when no client address was given. */
  datatype Record = Record(
    shortCode: string,
    originalUrl: string,
    createdAt: string,
    clickCount: nat,
    isActive: bool,
    createdByIp: Option<string>)

  /**
   * What a lookup reports: a hit carries the stored URL, click count and
   * creation time; a miss carries an error message and no URL.
   */
  datatype MappingView =
    | Found(originalUrl: string, clickCount: nat, createdAt: string)
    | NotFound(error: string)
  {
    /** The `exists` flag of the reported dictionary. */
    predicate Exists() { Found? }

    /** The `original_url` entry of the reported dictionary (`None` on a miss). */
    function Url(): Option<string> { if Found? then Some(originalUrl) else None }
  }

  /** The dictionary of all mappings, keyed by short code. */
  type Table = map<string, Record>

  /** The record a creation stores under `code`. */
  function NewRecord(url: string, code: string, ip: Option<string>): Record
  {
    Record(code, url, CreatedAt, 0, true, ip)
  }

  /** Every record sits under its own short code and carries the creation timestamp. */
  ghost predicate WellFormed(t: Table)
  {
    forall c :: c in t ==> t[c].shortCode == c && t[c].createdAt == CreatedAt
  }

  /**
   * Creation: stores a fresh record under `code`, replacing whatever was
   * there (there is no collision check), and leaves every other key alone.
   */
  function Create(t: Table, url: string, code: string, ip: Option<string>): (t': Table)
    ensures t'.Keys == t.Keys + {code}
    ensures t'[code].shortCode == code && t'[code].originalUrl == url
    ensures t'[code].createdAt == CreatedAt && t'[code].clickCount == 0
    ensures t'[code].isActive && t'[code].createdByIp == ip
    ensures forall c :: c in t && c != code ==> t'[c] == t[c]
    ensures WellFormed(t) ==> WellFormed(t')
  {
    t[code := NewRecord(url, code, ip)]
  }

  /**
   * Click increment: on a present code, raises that record's click count by
   * one and changes nothing else; on an absent code, changes nothing at all.
   */
  function Increment(t: Table, code: string): (t': Table)
    ensures t'.Keys == t.Keys
    ensures code in t ==> t'[code] == t[code].(clickCount := t[code].clickCount + 1)
    ensures code !in t ==> t' == t
    ensures forall c :: c in t && c != code ==> t'[c] == t[c]
    ensures WellFormed(t) ==> WellFormed(t')
  {
    if code in t then t[code := t[code].(clickCount := t[code].clickCount + 1)] else t
  }

  /** Lookup: a hit projects the stored record; a miss reports the not-found error. */
  function LookupMapping(t: Table, code: string): (v: MappingView)
    ensures v.Exists() <==> code in t
    ensures code in t ==>
      v.Url() == Some(t[code].originalUrl) && v.clickCount == t[code].clickCount && v.createdAt == t[code].createdAt
    ensures code !in t ==> v.Url() == None && v.error == NotFoundError
  {
    if code in t then
      var data := t[code];
      Found(data.originalUrl, data.clickCount, data.createdAt)
    else
      NotFound(NotFoundError)
  }

  /** Membership test. */
  function CodeExists(t: Table, code: string): bool
  {
    code in t
  }

  /** Statistics: the whole stored record, or `None` when the code is absent. */
  function StatsOf(t: Table, code: string): (r: Option<Record>)
    ensures r.Some? <==> code in t
    ensures r.Some? ==> r.value == t[code]
  {
    if code in t then Some(t[code]) else None
  }

  /** Development database initialisation: always succeeds. */
  function MockInitDb(): bool
  {
    true
  }

  /** The development collection handle: a fixed name. */
  function MockGetCollection(): string
  {
    MockCollection
  }

  /** The three lookups agree with each other on whether a code is present. */
  lemma QueriesAgree(t: Table, code: string)
    ensures CodeExists(t, code) == LookupMapping(t, code).Exists()
    ensures CodeExists(t, code) == StatsOf(t, code).Some?
    ensures StatsOf(t, code).Some? ==>
      LookupMapping(t, code) == Found(StatsOf(t, code).value.originalUrl,
                                   StatsOf(t, code).value.clickCount,
                                   StatsOf(t, code).value.createdAt)
  {
  }

  /**
   * Right after creating `code`, every lookup sees the new record: it exists,
   * resolves to `url` with no clicks and the fixed timestamp, and its
   * statistics are exactly the new record.
   */
  lemma CreateThenLookup(t: Table, url: string, code: string, ip: Option<string>)
    ensures CodeExists(Create(t, url, code, ip), code)
    ensures LookupMapping(Create(t, url, code, ip), code) == Found(url, 0, CreatedAt)
    ensures StatsOf(Create(t, url, code, ip), code)
      == Some(Record(code, url, CreatedAt, 0, true, ip))
  {
  }

  /**
   * Creating an existing code replaces its record (the old click count is
   * lost) without adding a key; creating a new code adds exactly one key.
   */
  lemma CreateOverwrites(t: Table, url: string, code: string, ip: Option<string>)
    ensures code in t ==> |Create(t, url, code, ip)| == |t|
    ensures code !in t ==> |Create(t, url, code, ip)| == |t| + 1
    ensures Create(t, url, code, ip)[code].clickCount == 0
  {
  }

  /** The in-memory store. Python keeps it at class level; here it is one object. */
  class MockURLMapping {
    /** The `_storage` dictionary. */
    var storage: Table
    /** The `_click_counts` dictionary: declared, never read or written. */
    var clickCounts: map<string, nat>

    ghost predicate Valid()
      reads this
    {
      WellFormed(storage)
    }

    /** Both dictionaries start empty. */
    constructor ()
      ensures Valid()
      ensures storage == map[] && clickCounts == map[]
    {
      storage := map[];
      clickCounts := map[];
    }

    /**
     * `create_mapping`: stores a fresh record under `shortCode`, overwriting
     * any record already there, and returns the stored record.
     */
    method CreateMapping(originalUrl: string, shortCode: string, clientIp: Option<string>)
      returns (r: Record)
      requires Valid()
      modifies this`storage
      ensures Valid()
      ensures storage == Create(old(storage), originalUrl, shortCode, clientIp)
      ensures shortCode in storage && r == storage[shortCode]
      ensures r == NewRecord(originalUrl, shortCode, clientIp)
    {
      storage := storage[shortCode := NewRecord(originalUrl, shortCode, clientIp)];
      r := storage[shortCode];
    }

    /** `get_mapping`: reports the stored URL, click count and timestamp, or a miss. */
    method GetMapping(shortCode: string) returns (v: MappingView)
      ensures v == LookupMapping(storage, shortCode)
      ensures Valid() && v.Exists() ==> v.createdAt == CreatedAt
    {
      if shortCode in storage {
        var data := storage[shortCode];
        v := Found(data.originalUrl, data.clickCount, data.createdAt);
      } else {
        v := NotFound(NotFoundError);
      }
    }

    /**
     * `increment_clicks`: on a present code adds one to its click count and
     * reports success; on an absent code reports failure and changes nothing.
     */
    method IncrementClicks(shortCode: string) returns (ok: bool)
      requires Valid()
      modifies this`storage
      ensures Valid()
      ensures ok <==> shortCode in old(storage)
      ensures storage == Increment(old(storage), shortCode)
      ensures !ok ==> storage == old(storage)
    {
      if shortCode in storage {
        var data := storage[shortCode];
        storage := storage[shortCode := data.(clickCount := data.clickCount + 1)];
        return true;
      }
      return false;
    }

    /** `validate_short_code_exists`: whether a record is stored under the code. */
    method ValidateShortCodeExists(shortCode: string) returns (b: bool)
      ensures b == CodeExists(storage, shortCode)
    {
      b := shortCode in storage;
    }

    /** `get_url_stats`: the whole stored record, or `None`. */
    method GetUrlStats(shortCode: string) returns (r: Option<Record>)
      ensures r == StatsOf(storage, shortCode)
      ensures Valid() && r.Some? ==> r.value.shortCode == shortCode && r.value.createdAt == CreatedAt
    {
      if shortCode in storage {
        return Some(storage[shortCode]);
      }
      return None;
    }
  }
}
