/** The client-side error log (src/utils/errorLog.ts): entries with truncated fields and
    sanitised metadata, kept newest first in a list capped at 50. The browser's storage
    slot is the `stored` field of `ErrorLogStorage`. */
module ErrorLog {
  import opened Collections

  const MaxStoredErrors: nat := 50
  const MaxFieldLength: nat := 1500
  /** The number of entries `getRecentAppErrors` returns when no limit is given. */
  const DefaultRecentLimit: nat := 20

  datatype ErrorSource = Caught | UnhandledError | UnhandledRejection

  /** A metadata value as it may arrive at run time; `Other` is anything that is not a
      string, number, boolean or null (undefined, an object, a function). */
  datatype RawValue = RawString(s: string) | RawNumber(n: int) | RawBoolean(b: bool) | RawNull | Other

  /** A metadata value that survives sanitising. */
  datatype MetadataValue = MString(s: string) | MNumber(n: int) | MBoolean(b: bool) | MNull

  /** The thrown value handed to `logAppError`: an `Error` instance, a string, another
      non-null object (with its `name` and `message` properties already converted by
      `String`, when present), or any other value. */
  datatype ThrownValue =
    | ErrorInstance(name: string, message: string, stack: Option<string>)
    | ThrownString(s: string)
    | ThrownObject(nameProperty: Option<string>, messageProperty: Option<string>)
    | ThrownOther

  datatype Normalized = Normalized(errorName: Option<string>, message: string, stack: Option<string>)

  datatype AppErrorLogEntry = AppErrorLogEntry(
    id: string,
    timestamp: string,
    source: ErrorSource,
    context: string,
    errorName: Option<string>,
    message: string,
    stack: Option<string>,
    metadata: map<string, MetadataValue>)

  // ----- truncate -----

  function Truncate(value: string, maxLength: nat): string {
    if |value| <= maxLength then value else value[..maxLength] + "..."
  }

  /** A value that fits is returned as it is; a longer one is cut to `maxLength`
      characters and marked with an ellipsis, so the result never exceeds
      `maxLength + 3`. */
  lemma TruncateSpec(value: string, maxLength: nat)
    ensures var r := Truncate(value, maxLength);
      && (|value| <= maxLength ==> r == value)
      && (|value| > maxLength ==> |r| == maxLength + 3 && r[..maxLength] == value[..maxLength]
                                   && r[maxLength..] == "...")
      && |r| <= maxLength + 3
  {
  }

  /** Truncating an already truncated value changes nothing: its first `maxLength`
      characters are kept and the ellipsis put back. */
  lemma TruncateIdempotent(value: string, maxLength: nat)
    ensures Truncate(Truncate(value, maxLength), maxLength) == Truncate(value, maxLength)
  {
    if |value| > maxLength {
      var r := Truncate(value, maxLength);
      assert r[..maxLength] == value[..maxLength];
    }
  }

  // ----- sanitizeMetadata -----

  /** One value as `sanitizeMetadata` stores it, or `None` when it is dropped. */
  function SanitizedValue(v: RawValue): Option<MetadataValue> {
    match v
    case RawString(s) => Some(MString(Truncate(s, MaxFieldLength)))
    case RawNumber(n) => Some(MNumber(n))
    case RawBoolean(b) => Some(MBoolean(b))
    case RawNull => Some(MNull)
    case Other => None
  }

  /** The `next` dictionary after the loop has visited `entries` in order. */
  function SanitizeEntries(entries: seq<(string, RawValue)>): map<string, MetadataValue> {
    if entries == [] then map[]
    else
      var next := SanitizeEntries(entries[..|entries| - 1]);
      var (key, value) := entries[|entries| - 1];
      match SanitizedValue(value)
      case Some(v) => next[key := v]
      case None => next
  }

  function Sanitized(metadata: Option<seq<(string, RawValue)>>): map<string, MetadataValue> {
    match metadata
    case None => map[]
    case Some(entries) => SanitizeEntries(entries)
  }

  /** The entries of a JavaScript object: no key occurs twice. */
  ghost predicate DistinctKeys(entries: seq<(string, RawValue)>) {
    forall i, j :: 0 <= i < j < |entries| ==> entries[i].0 != entries[j].0
  }

  /** A key survives exactly when some entry under it holds a string, number, boolean or
      null; no other key is added. */
  lemma {:induction false} SanitizeKeys(entries: seq<(string, RawValue)>)
    ensures forall k :: k in SanitizeEntries(entries) <==>
      exists i :: 0 <= i < |entries| && entries[i].0 == k && SanitizedValue(entries[i].1).Some?
  {
    if entries != [] {
      var init := entries[..|entries| - 1];
      SanitizeKeys(init);
      forall k ensures k in SanitizeEntries(entries) <==>
        exists i :: 0 <= i < |entries| && entries[i].0 == k && SanitizedValue(entries[i].1).Some?
      {
        if k in SanitizeEntries(init) {
          var i :| 0 <= i < |init| && init[i].0 == k && SanitizedValue(init[i].1).Some?;
          assert entries[i] == init[i];
        }
        if exists i :: 0 <= i < |entries| && entries[i].0 == k && SanitizedValue(entries[i].1).Some? {
          var i :| 0 <= i < |entries| && entries[i].0 == k && SanitizedValue(entries[i].1).Some?;
          if i < |init| {
            assert init[i] == entries[i];
          }
        }
      }
    }
  }

  /** With distinct keys every kept entry is stored under its key as sanitised: strings
      truncated, numbers, booleans and null as they were. */
  lemma {:induction false} SanitizeValues(entries: seq<(string, RawValue)>)
    requires DistinctKeys(entries)
    ensures forall i :: 0 <= i < |entries| && SanitizedValue(entries[i].1).Some? ==>
      && entries[i].0 in SanitizeEntries(entries)
      && SanitizeEntries(entries)[entries[i].0] == SanitizedValue(entries[i].1).value
  {
    if entries != [] {
      var init := entries[..|entries| - 1];
      var last := entries[|entries| - 1];
      assert DistinctKeys(init) by {
        forall i, j | 0 <= i < j < |init| ensures init[i].0 != init[j].0 {
          assert init[i] == entries[i] && init[j] == entries[j];
        }
      }
      SanitizeValues(init);
      forall i | 0 <= i < |entries| - 1 && SanitizedValue(entries[i].1).Some?
        ensures entries[i].0 in SanitizeEntries(entries)
        ensures SanitizeEntries(entries)[entries[i].0] == SanitizedValue(entries[i].1).value
      {
        assert init[i] == entries[i];
        assert entries[i].0 != last.0;
      }
    }
  }

  /** No stored string is longer than the field limit plus the ellipsis. */
  lemma {:induction false} SanitizeBoundsStrings(entries: seq<(string, RawValue)>)
    ensures forall k :: k in SanitizeEntries(entries) && SanitizeEntries(entries)[k].MString? ==>
      |SanitizeEntries(entries)[k].s| <= MaxFieldLength + 3
  {
    if entries != [] {
      SanitizeBoundsStrings(entries[..|entries| - 1]);
      var last := entries[|entries| - 1];
      if last.1.RawString? {
        TruncateSpec(last.1.s, MaxFieldLength);
      }
    }
  }

  /** `sanitizeMetadata`: no metadata gives an empty dictionary; otherwise the loop over
      the entries. */
  method SanitizeMetadata(metadata: Option<seq<(string, RawValue)>>) returns (next: map<string, MetadataValue>)
    ensures next == Sanitized(metadata)
    ensures metadata.None? ==> next == map[]
  {
    next := map[];
    if metadata.None? {
      return;
    }
    var entries := metadata.value;
    for i := 0 to |entries|
      invariant next == SanitizeEntries(entries[..i])
    {
      assert entries[..i + 1][..i] == entries[..i];
      var (key, value) := entries[i];
      match value
      case RawString(s) =>
        next := next[key := MString(Truncate(s, MaxFieldLength))];
      case RawNumber(n) =>
        next := next[key := MNumber(n)];
      case RawBoolean(b) =>
        next := next[key := MBoolean(b)];
      case RawNull =>
        next := next[key := MNull];
      case Other =>
    }
    assert entries[..|entries|] == entries;
  }

  // ----- normalizeUnknownError -----

  function NormalizeUnknownError(error: ThrownValue): Normalized {
    match error
    case ErrorInstance(name, message, stack) =>
      Normalized(Some(name),
                 Truncate(if message != "" then message else "Unknown Error", MaxFieldLength),
                 if stack.Some? && stack.value != "" then Some(Truncate(stack.value, MaxFieldLength)) else None)
    case ThrownString(s) =>
      Normalized(None, Truncate(s, MaxFieldLength), None)
    case ThrownObject(name, message) =>
      Normalized(if name.Some? && name.value != "" then Some(Truncate(name.value, MaxFieldLength)) else None,
                 Truncate(if message.Some? && message.value != "" then message.value
                          else "Unknown non-Error object", MaxFieldLength),
                 None)
    case ThrownOther =>
      Normalized(None, "Unknown error value", None)
  }

  /** The message is empty only for a thrown empty string, and never over the limit plus
      the ellipsis; a stack is
      kept only for an `Error` with a non-empty one, and a name only for an `Error` or an
      object with a non-empty name, truncated unless it is an `Error`'s own name. */
  lemma NormalizeBounds(error: ThrownValue)
    ensures var n := NormalizeUnknownError(error);
      && (n.message == [] <==> error == ThrownString([]))
      && |n.message| <= MaxFieldLength + 3
      && (n.stack.Some? <==> error.ErrorInstance? && error.stack.Some? && error.stack.value != "")
      && (n.stack.Some? ==> |n.stack.value| <= MaxFieldLength + 3)
      && (n.errorName.Some? <==>
            error.ErrorInstance? || (error.ThrownObject? && error.nameProperty.Some? && error.nameProperty.value != ""))
      && (n.errorName.Some? && !error.ErrorInstance? ==> |n.errorName.value| <= MaxFieldLength + 3)
  {
    match error
    case ErrorInstance(name, message, stack) =>
      TruncateSpec(if message != "" then message else "Unknown Error", MaxFieldLength);
      if stack.Some? {
        TruncateSpec(stack.value, MaxFieldLength);
      }
    case ThrownString(s) =>
      TruncateSpec(s, MaxFieldLength);
    case ThrownObject(name, message) =>
      TruncateSpec(if message.Some? && message.value != "" then message.value
                   else "Unknown non-Error object", MaxFieldLength);
      if name.Some? {
        TruncateSpec(name.value, MaxFieldLength);
      }
    case ThrownOther =>
  }

  /** A short thrown string becomes the message unchanged, with neither name nor stack. */
  lemma NormalizeShortString(s: string)
    requires |s| <= MaxFieldLength
    ensures NormalizeUnknownError(ThrownString(s)) == Normalized(None, s, None)
  {
  }

  // ----- logAppError -----

  /** The entry `logAppError` builds: `id` and `timestamp` stand for the fresh id and
      the clock; the source defaults to `caught`. */
  function NewEntry(id: string, timestamp: string, context: string, error: ThrownValue,
                    source: Option<ErrorSource>, metadata: Option<seq<(string, RawValue)>>): AppErrorLogEntry
  {
    var n := NormalizeUnknownError(error);
    AppErrorLogEntry(id, timestamp, GetOr(source, Caught), Truncate(context, MaxFieldLength),
                     n.errorName, n.message, n.stack, Sanitized(metadata))
  }

  lemma NewEntryFields(id: string, timestamp: string, context: string, error: ThrownValue,
                       source: Option<ErrorSource>, metadata: Option<seq<(string, RawValue)>>)
    ensures var e := NewEntry(id, timestamp, context, error, source, metadata);
      && (source.None? ==> e.source == Caught)
      && (source.Some? ==> e.source == source.value)
      && |e.context| <= MaxFieldLength + 3
      && (|context| <= MaxFieldLength ==> e.context == context)
      && (metadata.None? ==> e.metadata == map[])
  {
    TruncateSpec(context, MaxFieldLength);
    NormalizeBounds(error);
  }

  /** `writeErrorLogToStorage`: only the first 50 entries are written. */
  function Capped(entries: seq<AppErrorLogEntry>): seq<AppErrorLogEntry> {
    if |entries| <= MaxStoredErrors then entries else entries[..MaxStoredErrors]
  }

  /** Writing keeps a prefix of at most 50 entries, and all of them when they fit. */
  lemma CappedSpec(entries: seq<AppErrorLogEntry>)
    ensures var r := Capped(entries);
      && |r| <= MaxStoredErrors
      && |r| == (if |entries| <= MaxStoredErrors then |entries| else MaxStoredErrors)
      && r == entries[..|r|]
  {
  }

  /** The log after `logAppError`: the new entry first, then the entries before it, in
      their order, up to the cap. */
  function Logged(stored: seq<AppErrorLogEntry>, entry: AppErrorLogEntry): seq<AppErrorLogEntry> {
    Capped([entry] + stored)
  }

  lemma LoggedNewestFirst(stored: seq<AppErrorLogEntry>, entry: AppErrorLogEntry)
    ensures var r := Logged(stored, entry);
      && |r| >= 1 && r[0] == entry
      && |r| <= MaxStoredErrors
      && r[1..] == stored[..|r| - 1]
      && (|stored| < MaxStoredErrors ==> r[1..] == stored)
  {
    var all := [entry] + stored;
    CappedSpec(all);
    var r := Logged(stored, entry);
    assert r == all[..|r|];
    assert r[1..] == all[1..|r|];
    assert all[1..] == stored;
  }

  /** The first `max(0, limit)` entries, or all of them when there are fewer. */
  function Recent(stored: seq<AppErrorLogEntry>, limit: int): seq<AppErrorLogEntry> {
    var n := if limit < 0 then 0 else limit;
    if n < |stored| then stored[..n] else stored
  }

  /** What the test shows: after clearing, logging two entries and reading ten, the
      second entry comes first. */
  lemma TwoLogsNewestFirst(first: AppErrorLogEntry, second: AppErrorLogEntry)
    ensures Recent(Logged(Logged([], first), second), 10) == [second, first]
  {
  }

  class ErrorLogStorage {
    /** The entries in the storage slot, newest first. */
    var stored: seq<AppErrorLogEntry>

    predicate Valid()
      reads this
    {
      |stored| <= MaxStoredErrors
    }

    constructor ()
      ensures stored == [] && Valid()
    {
      stored := [];
    }

    /** `getRecentAppErrors(limit)`: at most `limit` entries, newest first. */
    method GetRecentAppErrors(limit: int) returns (r: seq<AppErrorLogEntry>)
      ensures |r| == if limit <= 0 then 0 else if limit < |stored| then limit else |stored|
      ensures r == stored[..|r|]
    {
      var n := if limit < 0 then 0 else limit;
      if n < |stored| {
        r := stored[..n];
      } else {
        r := stored;
      }
    }

    /** `getRecentAppErrors()` with no argument: the newest `DefaultRecentLimit` entries. */
    method GetDefaultRecentAppErrors() returns (r: seq<AppErrorLogEntry>)
      ensures |r| == if |stored| < DefaultRecentLimit then |stored| else DefaultRecentLimit
      ensures r == stored[..|r|]
    {
      r := GetRecentAppErrors(DefaultRecentLimit);
    }

    /** `clearAppErrors`. */
    method ClearAppErrors()
      modifies this
      ensures stored == [] && Valid()
    {
      stored := Capped([]);
    }

    /** `logAppError`: builds the entry, writes it in front of the stored ones, and
        returns it. */
    method LogAppError(context: string, error: ThrownValue, source: Option<ErrorSource>,
                       metadata: Option<seq<(string, RawValue)>>, id: string, timestamp: string)
      returns (entry: AppErrorLogEntry)
      modifies this
      ensures entry == NewEntry(id, timestamp, context, error, source, metadata)
      ensures stored == Logged(old(stored), entry)
      ensures Valid()
    {
      var normalized := NormalizeUnknownError(error);
      var cleanMetadata := SanitizeMetadata(metadata);
      entry := AppErrorLogEntry(id, timestamp, GetOr(source, Caught), Truncate(context, MaxFieldLength),
                                normalized.errorName, normalized.message, normalized.stack, cleanMetadata);
      var currentEntries := stored;
      stored := Capped([entry] + currentEntries);
    }
  }
}
